/**
 * understanding_ownership/src/main.rs: borrowing a `String` to measure it,
 * lending it mutably to append to it in place, and handing it to a function
 * that gives it back. Ownership and borrow checking happen at compile time and
 * are not modelled; what remains is what each call does to the text.
 */
module Ownership {
  import opened RustStd

  /** `fn1(s: &String) -> usize`: `s.len()`, the length in UTF-8 bytes. */
  function Fn1(s: string): nat
  {
    ByteLength(s)
  }

  /** `fn2(s: &mut String)`: `s.push_str("test")` on the caller's string. */
  method Fn2(s: StringBuffer)
    modifies s
    ensures s.contents == old(s.contents) + "test"
    ensures old(s.contents) <= s.contents
    ensures |s.contents| == |old(s.contents)| + 4
    ensures ByteLength(s.contents) == ByteLength(old(s.contents)) + 4
  {
    ByteLengthConcat(s.contents, "test");
    s.PushStr("test");
  }

  /** Appending text adds its byte length: `len` after `push_str(t)` grows by exactly `t.len()`. */
  lemma {:induction false} ByteLengthConcat(s: string, t: string)
    ensures ByteLength(s + t) == ByteLength(s) + ByteLength(t)
  {
    if s != [] {
      assert (s + t)[1..] == s[1..] + t;
      ByteLengthConcat(s[1..], t);
    } else {
      assert s + t == t;
    }
  }

  /** `s(s: String) -> String` in `return_of_ownership`: hands its argument back untouched. */
  function GiveBack(s: string): string
  {
    s
  }

  /** `references_and_borrowing`: the length of "hello", `s1` after the borrow, `s3` after `fn2`. */
  method ReferencesAndBorrowing() returns (len: nat, s1: string, s3: string)
    ensures len == 5 && s1 == "hello" && s3 == "hellotest"
  {
    s1 := "hello";
    len := Fn1(s1);
    var buffer := new StringBuffer.From("hello");
    Fn2(buffer);
    s3 := buffer.contents;
  }

  /** `return_of_ownership`: `a = s(a)` leaves `a` as "test". */
  method ReturnOfOwnership() returns (a: string)
    ensures a == "test"
  {
    a := "test";
    a := GiveBack(a);
  }
}
