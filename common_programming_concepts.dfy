/**
 * common_programming_concepts/src/main.rs: the if-expression, the three kinds
 * of loop, functions and block expressions, integer parsing and array repeat.
 * What the program prints is modelled as the sequence of values it prints.
 */
module CommonConcepts {
  import opened RustStd

  /** Rust's `i32`, the default integer type the tutorial's literals get. */
  newtype i32 = x: int | -0x8000_0000 <= x < 0x8000_0000

  // ---------------------------------------------------------------------------
  // control_flow
  // ---------------------------------------------------------------------------

  /** `let a = if is_good_looking { 5 } else { 6 };` */
  function IfExpression(isGoodLooking: bool): (a: int)
    ensures a == 5 <==> isGoodLooking
    ensures a == 6 <==> !isGoodLooking
  {
    if isGoodLooking then 5 else 6
  }

  /** What `(lo..hi).rev()` yields: `hi - 1` down to `lo`; the half-open range never yields `hi`. */
  function RangeRev(lo: int, hi: int): (s: seq<int>)
    ensures |s| == if lo < hi then hi - lo else 0
    ensures forall k :: 0 <= k < |s| ==> s[k] == hi - 1 - k
    decreases hi - lo
  {
    if hi <= lo then [] else [hi - 1] + RangeRev(lo, hi - 1)
  }

  /** What `(lo..=hi).rev()` yields: `hi` down to `lo`, both ends included. */
  function RangeInclusiveRev(lo: int, hi: int): (s: seq<int>)
    ensures s == RangeRev(lo, hi + 1)
    ensures lo <= hi ==> s[0] == hi && s[|s| - 1] == lo
  {
    RangeRev(lo, hi + 1)
  }

  /** The `loop` countdown: print and decrement while positive, `break` otherwise. */
  method LoopCountdown(start: i32) returns (printed: seq<int>, counter: i32)
    ensures printed == RangeRev(1, start as int + 1)
    ensures counter == if start > 0 then 0 else start
  {
    printed := [];
    counter := start;
    while true
      invariant if start > 0 then 0 <= counter <= start else counter == start
      invariant printed + RangeRev(1, counter as int + 1) == RangeRev(1, start as int + 1)
      decreases counter
    {
      if counter > 0 {
        printed := printed + [counter as int];
        counter := counter - 1;
      } else {
        break;
      }
    }
  }

  /** The `while` countdown: same values, same final counter. */
  method WhileCountdown(start: i32) returns (printed: seq<int>, counter: i32)
    ensures printed == RangeRev(1, start as int + 1)
    ensures counter == if start > 0 then 0 else start
  {
    printed := [];
    counter := start;
    while counter > 0
      invariant if start > 0 then 0 <= counter <= start else counter == start
      invariant printed + RangeRev(1, counter as int + 1) == RangeRev(1, start as int + 1)
    {
      printed := printed + [counter as int];
      counter := counter - 1;
    }
  }

  /** `loop { counter += 1; if counter == 10 { break counter * 2; } }` */
  method LoopWithValue() returns (value: i32, counter: i32)
    ensures counter == 10 && value == 20
  {
    counter := 0;
    while true
      invariant 0 <= counter < 10
      decreases 10 - counter
    {
      counter := counter + 1;
      if counter == 10 {
        value := counter * 2;
        return;
      }
    }
  }

  /** `for e in arr.iter()`: every element, first to last. */
  method IterVisits(arr: array<int>) returns (printed: seq<int>)
    ensures printed == arr[..]
  {
    printed := [];
    for i := 0 to arr.Length
      invariant printed == arr[..i]
    {
      printed := printed + [arr[i]];
    }
  }

  /** `for e in (lo..hi).rev()` */
  method RevVisits(lo: i32, hi: i32) returns (printed: seq<int>)
    ensures printed == RangeRev(lo as int, hi as int)
  {
    printed := [];
    if lo < hi {
      for e := hi downto lo
        invariant printed + RangeRev(lo as int, e as int) == RangeRev(lo as int, hi as int)
      {
        printed := printed + [e as int];
      }
    }
  }

  /** `control_flow` with its constants: what each of its loops prints. */
  method ControlFlow() returns (a: int, loopPrinted: seq<int>, loopReturn: i32, whilePrinted: seq<int>,
                                iterPrinted: seq<int>, revPrinted: seq<int>)
    ensures a == 5
    ensures loopPrinted == [3, 2, 1] && whilePrinted == [3, 2, 1]
    ensures loopReturn == 20
    ensures iterPrinted == [1, 2, 3]
    ensures revPrinted == [2, 1]
  {
    a := IfExpression(true);
    var aLoop;
    loopPrinted, aLoop := LoopCountdown(3);
    var counter;
    loopReturn, counter := LoopWithValue();
    var aWhile;
    whilePrinted, aWhile := WhileCountdown(3);
    var arr0 := new int[3] [1, 2, 3];
    iterPrinted := IterVisits(arr0);
    revPrinted := RevVisits(1, 3);
    CountdownFromThree();
    RevRangeExcludesEnd();
  }

  lemma CountdownFromThree()
    ensures RangeRev(1, 4) == [3, 2, 1]
  {
    assert RangeRev(1, 1) == [];
  }

  /** `(1..3).rev()` yields 2 then 1: 3 is not part of the half-open range. */
  lemma RevRangeExcludesEnd()
    ensures RangeRev(1, 3) == [2, 1]
    ensures 3 !in RangeRev(1, 3)
  {
    assert RangeRev(1, 1) == [];
  }

  /** `(1..=3).rev()` is the range that yields 3, 2, 1. */
  lemma InclusiveRevFromThree()
    ensures RangeInclusiveRev(1, 3) == [3, 2, 1]
  {
    CountdownFromThree();
  }

  // ---------------------------------------------------------------------------
  // functions
  // ---------------------------------------------------------------------------

  /** The sum `add(a, b)` prints, computed in `i32`: a debug build panics when it overflows. */
  function Add(a: i32, b: i32): (r: Result<i32, Panic>)
    ensures r.Ok? <==> -0x8000_0000 <= a as int + b as int < 0x8000_0000
    ensures r.Ok? ==> r.value as int == a as int + b as int
  {
    var sum := a as int + b as int;
    if -0x8000_0000 <= sum < 0x8000_0000 then Ok(sum as i32) else Err(Panic("attempt to add with overflow"))
  }

  /** The same sum in a release build, where `i32` addition wraps around modulo 2^32. */
  function AddWrapping(a: i32, b: i32): (r: i32)
  {
    var m := (a as int + b as int + 0x8000_0000) % 0x1_0000_0000;
    (m - 0x8000_0000) as i32
  }

  /**
   * The two builds agree whenever the sum fits; when it does not, the debug build
   * panics and the release build gives the sum shifted by exactly 2^32.
   */
  lemma AddBuildsAgree(a: i32, b: i32)
    ensures Add(a, b).Ok? ==> AddWrapping(a, b) == Add(a, b).value
    ensures Add(a, b).Err? ==> AddWrapping(a, b) as int == a as int + b as int - 0x1_0000_0000
                                 || AddWrapping(a, b) as int == a as int + b as int + 0x1_0000_0000
  {
    var sum := a as int + b as int;
    if sum >= 0x8000_0000 {
      assert (sum + 0x8000_0000) % 0x1_0000_0000 == sum + 0x8000_0000 - 0x1_0000_0000;
    } else if sum < -0x8000_0000 {
      assert (sum + 0x8000_0000) % 0x1_0000_0000 == sum + 0x8000_0000 + 0x1_0000_0000;
    }
  }

  /** `five()`: the `6;` statement is discarded and the final expression `5` is returned. */
  function Five(): (r: i32)
    ensures r == 5
  {
    var _ := 6;
    5
  }

  /** `functions`: the values it prints. */
  method Functions() returns (sum: i32, a: i32, b: i32, five: i32)
    ensures sum == 3 && a == 3 && b == 2 && five == 5
  {
    var added := Add(1, 2);
    sum := added.value;
    a := (var b := 1; var c := 2; b + c);
    b := 1 + 1;
    five := Five();
  }

  // ---------------------------------------------------------------------------
  // data_types
  // ---------------------------------------------------------------------------

  /** `[v; n]`: an array of `n` copies of `v`. */
  function Repeat(v: int, n: nat): (s: seq<int>)
    ensures |s| == n && forall k :: 0 <= k < n ==> s[k] == v
  {
    seq(n, _ => v)
  }

  lemma ParseSmallNumbers()
    ensures ParseU32("4") == Ok(4)
    ensures ParseU32("42") == Ok(42)
  {
    ParseU32ToDecimal(4);
    ParseU32ToDecimal(42);
    assert ToDecimal(4) == "4";
    assert ToDecimal(42) == "42";
  }

  /** `data_types`: the parses `unwrap`/`expect` do not panic on, and the two equal array literals. */
  method DataTypes() returns (x: u32, y: u32, z: u32, arr2: seq<int>, arr3: seq<int>)
    ensures x == 4 && y == 42 && z == 4
    ensures arr2 == arr3 == [3, 3, 3, 3, 3] && arr2[1] == 3
  {
    ParseSmallNumbers();
    x := UnwrapResult(ParseU32("4"), "called `Result::unwrap()` on an `Err` value").value;
    y := UnwrapResult(ParseU32("42"), "Not a number!").value;
    z := UnwrapResult(ParseU32("4"), "called `Result::unwrap()` on an `Err` value").value;
    arr2 := Repeat(3, 5);
    arr3 := [3, 3, 3, 3, 3];
  }
}
