/**
 * enums_and_pattern_matching/src/main.rs: the `Coin` match, `if let` on
 * `Console`, enum variants that carry data, and `Option` accessors.
 */
module Enums {
  import opened RustStd

  // ---------------------------------------------------------------------------
  // the_match_control_flow_operator
  // ---------------------------------------------------------------------------

  datatype Coin = Penny | Nickel | Dime | Quarter

  /** `value_i_cennts`: the exhaustive match from a coin to its value in cents. */
  function ValueInCents(coin: Coin): (cents: u32)
    ensures cents in {1, 5, 10, 25}
  {
    match coin
    case Penny => 1
    case Nickel => 5
    case Dime => 10
    case Quarter => 25
  }

  /** The coin worth a number of cents, if there is one. */
  function CoinWorth(cents: u32): (c: Option<Coin>)
    ensures c.Some? <==> cents in {1, 5, 10, 25}
  {
    if cents == 1 then Some(Penny)
    else if cents == 5 then Some(Nickel)
    else if cents == 10 then Some(Dime)
    else if cents == 25 then Some(Quarter)
    else None
  }

  /** Each coin has its own value: the value determines the coin. */
  lemma ValueInCentsRoundTrip(coin: Coin, cents: u32)
    ensures CoinWorth(ValueInCents(coin)) == Some(coin)
    ensures CoinWorth(cents).Some? ==> ValueInCents(CoinWorth(cents).value) == cents
  {
  }

  /** `the_match_control_flow_operator`: the four values it prints. */
  method MatchControlFlowOperator() returns (values: seq<u32>)
    ensures values == [1, 5, 10, 25]
  {
    values := [ValueInCents(Penny), ValueInCents(Nickel), ValueInCents(Dime), ValueInCents(Quarter)];
  }

  // ---------------------------------------------------------------------------
  // concise_control_flow_with_if_let
  // ---------------------------------------------------------------------------

  datatype Console = PS5 | Xbox

  datatype Message = Fave | NotAFaveButWhyNot

  /** The two `if let`s in a row: each prints only when `fave` is its variant. */
  function IfLetMessages(fave: Console): (printed: seq<Message>)
    ensures |printed| == 1
    ensures Fave in printed <==> fave == PS5
    ensures NotAFaveButWhyNot in printed <==> fave == Xbox
  {
    (if fave.PS5? then [Fave] else []) + (if fave.Xbox? then [NotAFaveButWhyNot] else [])
  }

  /** With `fave = PS5` the first branch runs and the second does not. */
  lemma PS5IsTheFave()
    ensures IfLetMessages(PS5) == [Fave]
  {
  }

  // ---------------------------------------------------------------------------
  // defining_an_enum
  // ---------------------------------------------------------------------------

  datatype IpAddrKind = V4

  /** The struct `IpAddr { kind, ip }`. */
  datatype IpAddr = IpAddr(kind: IpAddrKind, ip: string)

  /** `IpAddrKindCon`: the variant carries the address itself. */
  datatype IpAddrKindCon = V4Con(0: u32, 1: u32, 2: u32, 3: u32) | V6Con(addr: string)

  datatype Person = Person(name: string, lambo: Option<string>)

  /** `defining_an_enum`: the values it builds and prints. */
  method DefiningAnEnum() returns (ip1: IpAddr, ip2: IpAddrKindCon, ip3: IpAddrKindCon, op1: Option<u32>,
                                   unwrapped: u32, lambo1: string, p2: Person)
    ensures ip1.kind == V4 && ip1.ip == "127.0.0.1"
    ensures ip2.V4Con? && ip2.0 == 127 && ip2.1 == 0 && ip2.2 == 0 && ip2.3 == 1
    ensures ip3.V6Con? && ip3.addr == "::1"
    ensures op1 == Some(5) && unwrapped == 5
    ensures lambo1 == "Fire"
    ensures p2.lambo == None && UnwrapOrDefault(p2.lambo) == ""
  {
    ip1 := IpAddr(V4, "127.0.0.1");
    ip2 := V4Con(127, 0, 0, 1);
    ip3 := V6Con("::1");
    op1 := Some(5);
    unwrapped := Unwrap(op1).value;
    var p1 := Person("P1", Some("Fire"));
    lambo1 := UnwrapOrDefault(p1.lambo);
    p2 := Person("P1", None);
  }

  /** `unwrap` gives back what `Some` holds and panics only on `None`; `unwrap_or_default` never panics. */
  lemma OptionAccessors<T>(x: T, s: string)
    ensures Unwrap(Some(x)) == Ok(x)
    ensures Unwrap<T>(None).Err?
    ensures UnwrapOrDefault(Some(s)) == s && UnwrapOrDefault(None) == ""
  {
  }
}
