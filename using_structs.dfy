/**
 * using_structs_to_structure_related_data/src/main.rs: the `Rectangle` methods,
 * the four ways of computing an area, and the `User` struct with field
 * assignment, field-init shorthand and struct-update syntax.
 */
module Structs {
  import opened RustStd

  // ---------------------------------------------------------------------------
  // method_syntax
  // ---------------------------------------------------------------------------

  datatype Rectangle = Rectangle(width: u32, height: u32)

  /** The product fits in `u32`, so the multiplications below do not overflow. */
  predicate AreaFits(width: u32, height: u32)
  {
    width as int * height as int <= U32_MAX
  }

  /** `Rectangle::calculate`: `self.width * self.height`. */
  function Calculate(r: Rectangle): (area: u32)
    requires AreaFits(r.width, r.height)
  {
    (r.width as int * r.height as int) as u32
  }

  /** `Rectangle::can_fit` as written: both sides of `self` are compared with `others.height`. */
  function CanFit(self: Rectangle, others: Rectangle): bool
  {
    self.width >= others.height && self.height >= others.height
  }

  /** The comparison `can_fit` evidently means: `others` fits inside `self` side by side. */
  function CanFitBothSides(self: Rectangle, others: Rectangle): bool
  {
    self.width >= others.width && self.height >= others.height
  }

  /** `Rectangle::square`: an associated function building a square. */
  function Square(size: u32): (r: Rectangle)
    ensures r.width == r.height == size
  {
    Rectangle(size, size)
  }

  /** The area of a rectangle is the product of its sides, whichever way they are given. */
  lemma CalculateIsProduct(r: Rectangle)
    requires AreaFits(r.width, r.height)
    ensures Calculate(r) as int == r.width as int * r.height as int
    ensures Calculate(r) == Calculate(Rectangle(r.height, r.width))
    ensures r.width > 0 ==> Calculate(r) >= r.height
  {
    assert r.width as int * r.height as int == r.height as int * r.width as int;
    if r.width > 0 {
      assert r.width as int * r.height as int >= 1 * r.height as int;
    }
  }

  /** `can_fit` never reads `others.width`: changing it never changes the answer. */
  lemma CanFitIgnoresOthersWidth(self: Rectangle, others: Rectangle, w: u32)
    ensures CanFit(self, others) == CanFit(self, others.(width := w))
  {
  }

  /** A rectangle far wider than `self` still "fits", and its area is larger than `self`'s. */
  lemma CanFitAdmitsWiderRectangle()
    ensures CanFit(Rectangle(10, 10), Rectangle(200, 1))
    ensures !CanFitBothSides(Rectangle(10, 10), Rectangle(200, 1))
    ensures Calculate(Rectangle(200, 1)) > Calculate(Rectangle(10, 10))
  {
  }

  /** The corrected comparison is a partial order on rectangles. */
  lemma CanFitBothSidesIsPartialOrder(a: Rectangle, b: Rectangle, c: Rectangle)
    ensures CanFitBothSides(a, a)
    ensures CanFitBothSides(a, b) && CanFitBothSides(b, a) ==> a == b
    ensures CanFitBothSides(a, b) && CanFitBothSides(b, c) ==> CanFitBothSides(a, c)
  {
  }

  /** What fits inside a rectangle never has a larger area. */
  lemma CanFitBothSidesBoundsArea(self: Rectangle, others: Rectangle)
    requires AreaFits(self.width, self.height)
    requires CanFitBothSides(self, others)
    ensures AreaFits(others.width, others.height)
    ensures Calculate(others) <= Calculate(self)
  {
    var w, h := others.width as int, others.height as int;
    var W, H := self.width as int, self.height as int;
    assert w * h <= W * h by { MulMonotone(w, W, h); }
    assert W * h <= W * H by { MulMonotone(h, H, W); }
  }

  lemma MulMonotone(a: nat, b: nat, c: nat)
    requires a <= b
    ensures a * c <= b * c && c * a <= c * b
  {
  }

  /** Two 10 x 10 rectangles fit each other, by either comparison. */
  lemma EqualSquaresFit()
    ensures CanFit(Rectangle(10, 10), Rectangle(10, 10))
    ensures CanFitBothSides(Rectangle(10, 10), Rectangle(10, 10))
  {
  }

  /** `Rectangle::square(size)` has area `size * size`; `square(20)` is 20 x 20. */
  lemma SquareArea(size: u32)
    requires AreaFits(size, size)
    ensures Calculate(Square(size)) as int == size as int * size as int
    ensures Square(20) == Rectangle(20, 20)
  {
  }

  /** `method_syntax`: the area of 10 x 10, whether 10 x 10 fits in 10 x 10, and `square(20)`. */
  method MethodSyntax() returns (area: u32, fits: bool, rec2: Rectangle)
    ensures area == 100 && fits && rec2 == Rectangle(20, 20)
  {
    var rec1 := Rectangle(10, 10);
    area := Calculate(rec1);
    fits := CanFit(Rectangle(10, 10), Rectangle(10, 10));
    rec2 := Square(20);
  }

  // ---------------------------------------------------------------------------
  // an_example_program_using_structs
  // ---------------------------------------------------------------------------

  /** The tuple struct `Dime0(u32, u32)`. */
  datatype Dime0 = Dime0(0: u32, 1: u32)

  /** The named-field struct `Dime1 { width, height }`. */
  datatype Dime1 = Dime1(width: u32, height: u32)

  /** `area0(width, height)` */
  function Area0(width: u32, height: u32): u32
    requires AreaFits(width, height)
  {
    (width as int * height as int) as u32
  }

  /** `area1(dimension: (u32, u32))` */
  function Area1(dimension: (u32, u32)): u32
    requires AreaFits(dimension.0, dimension.1)
  {
    (dimension.0 as int * dimension.1 as int) as u32
  }

  /** `area2(dimension: Dime0)` */
  function Area2(dimension: Dime0): u32
    requires AreaFits(dimension.0, dimension.1)
  {
    (dimension.0 as int * dimension.1 as int) as u32
  }

  /** `area3(dimension: Dime1)` */
  function Area3(dimension: Dime1): u32
    requires AreaFits(dimension.width, dimension.height)
  {
    (dimension.width as int * dimension.height as int) as u32
  }

  /** However the two sides are packaged, all four area functions and `calculate` agree. */
  lemma AreasAgree(width: u32, height: u32)
    requires AreaFits(width, height)
    ensures Area0(width, height) as int == width as int * height as int
    ensures Area0(width, height) == Area1((width, height)) == Area2(Dime0(width, height))
              == Area3(Dime1(width, height)) == Calculate(Rectangle(width, height))
  {
  }

  /** `an_example_program_using_structs`: the four areas it prints. */
  method ExampleProgramUsingStructs() returns (a0: u32, a1: u32, a2: u32, a3: u32)
    ensures a0 == 100 && a1 == 400 && a2 == 900 && a3 == 1600
  {
    a0 := Area0(10, 10);
    a1 := Area1((20, 20));
    a2 := Area2(Dime0(30, 30));
    var dime1 := Dime1(40, 40);
    a3 := Area3(dime1);
  }

  // ---------------------------------------------------------------------------
  // defining_and_instantiating_structs
  // ---------------------------------------------------------------------------

  datatype User = User(firstName: string, lastName: string, userName: string, email: string)

  /**
   * A user with a new `email` and every other field kept: both what
   * `user.email = e` does to a `let mut` binding and what `User { email: e, ..u }` builds.
   */
  function WithEmail(u: User, e: string): (r: User)
    ensures r.email == e
    ensures r.firstName == u.firstName && r.lastName == u.lastName && r.userName == u.userName
  {
    u.(email := e)
  }

  /** `copy_identity(user_name)`: field-init shorthand for `user_name`, literals for the rest. */
  function CopyIdentity(userName: string): (r: User)
    ensures r.userName == userName
    ensures r.firstName == "Quirino" && r.lastName == "Gervacio" && r.email == "email"
  {
    User(userName := userName, firstName := "Quirino", lastName := "Gervacio", email := "email")
  }

  /** Replacing the email twice keeps only the last one; replacing it by itself changes nothing. */
  lemma WithEmailOverwrites(u: User, e1: string, e2: string)
    ensures WithEmail(WithEmail(u, e1), e2) == WithEmail(u, e2)
    ensures WithEmail(u, u.email) == u
  {
  }

  /** The tuple struct `Hero(String, String)`. */
  datatype Hero = Hero(0: string, 1: string)

  /** `defining_and_instantiating_structs`: the three users and the hero it builds. */
  method DefiningAndInstantiatingStructs() returns (user: User, user2: User, user3: User, superman: Hero)
    ensures user == User("Quirino", "Gervacio", "qgervacio", "qgervacio@gmail.com")
    ensures user2.userName == "jun_pogi"
    ensures user3.userName == "jun_pogi" && user3.email == "email@email.com"
    ensures user3.firstName == user2.firstName && user3.lastName == user2.lastName
    ensures superman.0 == "Superman" && superman.1 == "Awesomeness"
  {
    user := User(firstName := "Quirino", lastName := "Gervacio", userName := "qgervacio", email := "email");
    user := WithEmail(user, "qgervacio@gmail.com");
    user2 := CopyIdentity("jun_pogi");
    user3 := WithEmail(user2, "email@email.com");
    superman := Hero("Superman", "Awesomeness");
  }
}
