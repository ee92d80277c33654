/**
 * The number-guessing game (guessing_game/src/main.rs): a secret in 1..5 is
 * drawn once; each line read is trimmed and parsed as a `u32`; a parse error
 * answers "Not a number!" and asks again, otherwise the guess is compared with
 * the secret and the game stops on the first equal guess.
 *
 * The random draw becomes the parameter `secret`; stdin becomes a finite
 * sequence of lines, and running out of lines stands for the read failure
 * that makes `expect` abort the program.
 */
module GuessingGame {
  import opened RustStd

  /** What the game prints after reading one line (the echo and prompt aside). */
  datatype Response =
    | NotANumber      // "Not a number!"
    | TooBig          // "Too big!"
    | TooSmall        // "Too small!"
    | Win(secret: u32) // "You win! The secret number is {secret}"

  /** How a session ends: by the winning `break`, or because no line could be read. */
  datatype Ending = Won | InputEnded

  datatype Transcript = Transcript(responses: seq<Response>, ending: Ending)

  /** The decision for one input line: `trim`, `parse::<u32>`, then `cmp` with the secret. */
  function Classify(secret: u32, line: string): Response
  {
    match ParseU32(Trim(line))
    case Err(_) => NotANumber
    case Ok(guess) =>
      if guess > secret then TooBig
      else if guess < secret then TooSmall
      else Win(secret)
  }

  /** The responses to a line, stated through the text `u32::from_str` accepts and the number it denotes. */
  lemma ClassifySpec(secret: u32, line: string)
    ensures var t := Trim(line);
      && (Classify(secret, line) == NotANumber <==> !IsU32Text(t))
      && (Classify(secret, line) == TooBig <==> IsU32Text(t) && DecimalValue(UnsignedDigits(t)) > secret as int)
      && (Classify(secret, line) == TooSmall <==> IsU32Text(t) && DecimalValue(UnsignedDigits(t)) < secret as int)
      && (Classify(secret, line).Win? <==> IsU32Text(t) && DecimalValue(UnsignedDigits(t)) == secret as int)
  {
    ParseU32Spec(Trim(line));
  }

  /** Only an equal guess wins, and the win message carries the secret itself. */
  lemma WinOnlyOnEqualGuess(secret: u32, line: string)
    ensures Classify(secret, line).Win? <==> ParseU32(Trim(line)) == Ok(secret)
    ensures Classify(secret, line).Win? ==> Classify(secret, line) == Win(secret)
  {
  }

  /** The trailing newline `read_line` keeps, and any other white space around the guess, does not matter. */
  lemma ClassifyIgnoresSurroundingWhiteSpace(secret: u32, pre: string, line: string, post: string)
    requires AllWhiteSpace(pre) && AllWhiteSpace(post)
    ensures Classify(secret, pre + line + post) == Classify(secret, line)
  {
    TrimIgnoresPadding(pre, line, post);
  }

  /**
   * Every number is compared as it is: there is no range check, so 0, 6 or 100
   * get "Too small!"/"Too big!" like any other guess.
   */
  lemma NumericGuessComparedNormally(secret: u32, n: u32, pre: string, post: string)
    requires AllWhiteSpace(pre) && AllWhiteSpace(post)
    ensures Classify(secret, pre + ToDecimal(n as nat) + post) ==
              if n > secret then TooBig else if n < secret then TooSmall else Win(secret)
  {
    ClassifyIgnoresSurroundingWhiteSpace(secret, pre, ToDecimal(n as nat), post);
    ParseU32ToDecimal(n);
    var t := ToDecimal(n as nat);
    assert Trim(t) == t by {
      assert t[0] == t[0] && !IsWhiteSpace(t[0]) && !IsWhiteSpace(t[|t| - 1]);
    }
  }

  lemma OutOfRangeGuesses(secret: u32)
    requires 1 <= secret <= 5
    ensures Classify(secret, "0\n") == TooSmall
    ensures Classify(secret, "6\n") == TooBig
    ensures Classify(secret, "100\n") == TooBig
  {
    NumericGuessComparedNormally(secret, 0, "", "\n");
    NumericGuessComparedNormally(secret, 6, "", "\n");
    NumericGuessComparedNormally(secret, 100, "", "\n");
    assert ToDecimal(0) == "0";
    assert ToDecimal(6) == "6";
    assert ToDecimal(100) == "100";
  }

  /** Text that is not a `u32` (empty, letters, a leading `-`, too large) is answered "Not a number!". */
  lemma NotANumberCases(secret: u32, s: string, n: string)
    ensures Classify(secret, "") == NotANumber
    ensures Classify(secret, "\n") == NotANumber
    ensures Classify(secret, "abc") == NotANumber
    ensures Classify(secret, "-1") == NotANumber
    ensures Classify(secret, "4294967296") == NotANumber
    ensures (var t := Trim(s); |t| > 0 && t[0] == '-') ==> Classify(secret, s) == NotANumber
    ensures AllDigits(Trim(n)) && DecimalValue(Trim(n)) > U32_MAX ==> Classify(secret, n) == NotANumber
  {
    ParseU32Errors(Trim(s), Trim(n));
    assert Trim("\n") == "" by {
      assert AllWhiteSpace("\n");
      TrimStartOfWhiteSpace("\n");
    }
    assert Trim("abc") == "abc";
    assert Trim("-1") == "-1";
    assert Trim("4294967296") == "4294967296";
    ParseU32Errors("-1", "4294967296");
  }

  /** The answer each line would get, in order. */
  function Answers(secret: u32, lines: seq<string>): (a: seq<Response>)
    ensures |a| == |lines|
    ensures forall k :: 0 <= k < |lines| ==> a[k] == Classify(secret, lines[k])
  {
    if lines == [] then []
    else
      var rest := Answers(secret, lines[1..]);
      assert forall k :: 1 <= k < |lines| ==> lines[k] == lines[1..][k - 1];
      [Classify(secret, lines[0])] + rest
  }

  /** Loop control: answers are given in order up to and including the first win. */
  function UntilWin(answers: seq<Response>): (t: Transcript)
    ensures |t.responses| <= |answers| && t.responses == answers[..|t.responses|]
  {
    if answers == [] then Transcript([], InputEnded)
    else if answers[0].Win? then Transcript([answers[0]], Won)
    else
      var rest := UntilWin(answers[1..]);
      Transcript([answers[0]] + rest.responses, rest.ending)
  }

  /**
   * The only way out is a win: the session is won exactly when some answer is a
   * win, it then ends on the first one, and otherwise every answer is given.
   */
  lemma {:induction false} UntilWinEnding(answers: seq<Response>)
    ensures var t := UntilWin(answers);
      && (t.ending == Won <==> exists k :: 0 <= k < |answers| && answers[k].Win?)
      && (t.ending == InputEnded ==> t.responses == answers)
      && (t.ending == Won ==> t.responses != [] && t.responses[|t.responses| - 1].Win?)
      && (forall k :: 0 <= k < |t.responses| - 1 ==> !t.responses[k].Win?)
      && (t.ending == InputEnded ==> forall k :: 0 <= k < |t.responses| ==> !t.responses[k].Win?)
  {
    if answers != [] && !answers[0].Win? {
      var rest := answers[1..];
      UntilWinEnding(rest);
      var t, u := UntilWin(answers), UntilWin(rest);
      assert (exists k :: 0 <= k < |answers| && answers[k].Win?) <==>
             (exists k :: 0 <= k < |rest| && rest[k].Win?) by {
        if exists k :: 0 <= k < |answers| && answers[k].Win? {
          var k :| 0 <= k < |answers| && answers[k].Win?;
          assert k > 0 && answers[k] == rest[k - 1];
        }
        if exists k :: 0 <= k < |rest| && rest[k].Win? {
          var k :| 0 <= k < |rest| && rest[k].Win?;
          assert answers[k + 1] == rest[k];
        }
      }
      forall k | 0 <= k < |t.responses| - 1 ensures !t.responses[k].Win? {
        if k > 0 { assert t.responses[k] == u.responses[k - 1]; }
      }
      if u.ending == InputEnded {
        assert answers == [answers[0]] + rest;
      }
    }
  }

  /**
   * The game over a finite input: each line read gets its answer, judged
   * against the one secret, until the first win.
   */
  function Session(secret: u32, lines: seq<string>): Transcript
  {
    UntilWin(Answers(secret, lines))
  }

  /** Each response is the answer to the line read at that point, judged against the one secret. */
  lemma SessionAnswersInOrder(secret: u32, lines: seq<string>)
    ensures var t := Session(secret, lines);
      && |t.responses| <= |lines|
      && forall k :: 0 <= k < |t.responses| ==> t.responses[k] == Classify(secret, lines[k])
  {
    var a := Answers(secret, lines);
    var t := UntilWin(a);
    forall k | 0 <= k < |t.responses| ensures t.responses[k] == Classify(secret, lines[k]) {
      assert t.responses[k] == a[..|t.responses|][k];
    }
  }

  /**
   * A session is won exactly when some line wins; it then ends on the first
   * winning line, whose message carries the secret.
   */
  lemma SessionWonOnFirstWin(secret: u32, lines: seq<string>)
    ensures var t := Session(secret, lines);
      && (t.ending == Won <==> exists k :: 0 <= k < |lines| && Classify(secret, lines[k]).Win?)
      && (t.ending == Won ==> t.responses != [] && t.responses[|t.responses| - 1] == Win(secret))
      && (forall k :: 0 <= k < |t.responses| - 1 ==> !t.responses[k].Win?)
  {
    var a := Answers(secret, lines);
    UntilWinEnding(a);
    var t := UntilWin(a);
    if t.ending == Won {
      var j := |t.responses| - 1;
      assert t.responses[j] == a[j] == Classify(secret, lines[j]) by {
        assert t.responses[j] == a[..|t.responses|][j];
      }
      WinOnlyOnEqualGuess(secret, lines[j]);
    }
  }

  /** A session that runs out of input answered every line and none of them won. */
  lemma SessionEndedAnsweredAll(secret: u32, lines: seq<string>)
    ensures var t := Session(secret, lines);
      t.ending == InputEnded ==>
        && t.responses == Answers(secret, lines)
        && forall k :: 0 <= k < |lines| ==> !Classify(secret, lines[k]).Win?
  {
    UntilWinEnding(Answers(secret, lines));
  }

  /**
   * One pass of `main`'s loop body after the read: `trim` and `parse`, answer
   * "Not a number!" on an error, otherwise `cmp` the guess with the secret.
   * Its meaning is stated by `ClassifySpec`, through the text `u32::from_str`
   * accepts and the number it denotes.
   */
  method Respond(secret: u32, line: string) returns (r: Response)
    ensures r == Classify(secret, line)
  {
    var guess: u32;
    match ParseU32(Trim(line)) {
      case Err(_) =>
        return NotANumber;
      case Ok(num) =>
        guess := num;
    }
    if guess > secret {
      r := TooBig;
    } else if guess < secret {
      r := TooSmall;
    } else {
      r := Win(secret);
    }
  }

  /**
   * `main`'s loop: read a line, answer it, `continue` after "Not a number!",
   * `break` after the win. The secret is bound once, before the loop.
   */
  method Play(secret: u32, lines: seq<string>) returns (responses: seq<Response>, ending: Ending)
    requires 1 <= secret <= 5
    ensures Transcript(responses, ending) == Session(secret, lines)
  {
    ghost var answers := Answers(secret, lines);
    responses := [];
    var i := 0;
    while true
      invariant 0 <= i <= |lines|
      invariant responses == answers[..i]
      invariant forall k :: 0 <= k < i ==> !answers[k].Win?
      decreases |lines| - i
    {
      if i == |lines| {
        UntilWinFirst(answers, i);
        assert answers[..i] == answers;
        ending := InputEnded;
        return;
      }
      var line := lines[i];
      var r := Respond(secret, line);
      NoWinSoFar(answers, i, r);
      i := i + 1;
      responses := responses + [r];
      if r == NotANumber {
        continue;
      }
      if r.Win? {
        UntilWinFirst(answers, i - 1);
        ending := Won;
        return;
      }
    }
  }

  lemma NoWinSoFar(answers: seq<Response>, i: nat, r: Response)
    requires i < |answers| && answers[i] == r
    requires forall k :: 0 <= k < i ==> !answers[k].Win?
    ensures answers[..i + 1] == answers[..i] + [r]
    ensures !r.Win? ==> forall k :: 0 <= k < i + 1 ==> !answers[k].Win?
  {
  }

  /** `UntilWin` stops exactly at the first win, or answers everything when there is none. */
  lemma {:induction false} UntilWinFirst(answers: seq<Response>, i: nat)
    requires i <= |answers|
    requires forall k :: 0 <= k < i ==> !answers[k].Win?
    requires i < |answers| ==> answers[i].Win?
    ensures UntilWin(answers) ==
              if i == |answers| then Transcript(answers, InputEnded) else Transcript(answers[..i + 1], Won)
  {
    if i > 0 {
      UntilWinFirst(answers[1..], i - 1);
      assert answers == [answers[0]] + answers[1..];
      if i < |answers| {
        assert answers[..i + 1] == [answers[0]] + answers[1..][..i];
      }
    }
  }

  /**
   * Bad input, entered any number of times, never ends the game: every line is
   * answered "Not a number!" and the session is still running when input runs out.
   */
  lemma NotANumbersNeverEnd(secret: u32, lines: seq<string>)
    requires forall k :: 0 <= k < |lines| ==> Classify(secret, lines[k]) == NotANumber
    ensures Session(secret, lines) == Transcript(seq(|lines|, _ => NotANumber), InputEnded)
  {
    var a := Answers(secret, lines);
    UntilWinFirst(a, |lines|);
    assert a == seq(|lines|, _ => NotANumber);
  }

  /** A line of nothing but white space (and the empty buffer `read_line` leaves at end of input) is not a number. */
  lemma BlankLineIsNotANumber(secret: u32, line: string)
    requires AllWhiteSpace(line)
    ensures Classify(secret, line) == NotANumber
  {
    TrimStartOfWhiteSpace(line);
  }

  /**
   * At real end of input `read_line` succeeds with an empty buffer each time, so
   * however many times the loop reads there, it only answers "Not a number!" and
   * never ends.
   */
  lemma EndOfInputSpins(secret: u32, n: nat)
    ensures Session(secret, seq(n, _ => "")) == Transcript(seq(n, _ => NotANumber), InputEnded)
  {
    var lines: seq<string> := seq(n, _ => "");
    forall k | 0 <= k < |lines| ensures Classify(secret, lines[k]) == NotANumber {
      BlankLineIsNotANumber(secret, lines[k]);
    }
    NotANumbersNeverEnd(secret, lines);
  }

  /** Bad input is answered and skipped: the rest of the session is what it would have been without it. */
  lemma NotANumberIsSkipped(secret: u32, line: string, lines: seq<string>)
    requires Classify(secret, line) == NotANumber
    ensures Session(secret, [line] + lines) ==
              Transcript([NotANumber] + Session(secret, lines).responses, Session(secret, lines).ending)
  {
    var a := Answers(secret, [line] + lines);
    assert a == [NotANumber] + Answers(secret, lines);
    assert a[1..] == Answers(secret, lines);
  }

  /** A number typed and followed by Enter is compared as it is. */
  lemma ClassifyNumberLine(secret: u32, n: u32)
    ensures Classify(secret, ToDecimal(n as nat) + "\n") ==
              if n > secret then TooBig else if n < secret then TooSmall else Win(secret)
  {
    NumericGuessComparedNormally(secret, n, "", "\n");
    assert "" + ToDecimal(n as nat) + "\n" == ToDecimal(n as nat) + "\n";
  }

  lemma ExampleNumberLines()
    ensures Classify(3, "10\n") == TooBig
    ensures Classify(3, "1\n") == TooSmall
    ensures Classify(3, "3\n") == Win(3)
  {
    ClassifyNumberLine(3, 10);
    ClassifyNumberLine(3, 1);
    ClassifyNumberLine(3, 3);
    assert ToDecimal(10) == "10";
    assert ToDecimal(1) == "1";
    assert ToDecimal(3) == "3";
  }

  /** With secret 3, the input "abc", "10", "1", "3" gets the four answers and the game ends won. */
  lemma ExampleSession()
    ensures Session(3, ["abc\n", "10\n", "1\n", "3\n"]) ==
              Transcript([NotANumber, TooBig, TooSmall, Win(3)], Won)
  {
    var lines := ["abc\n", "10\n", "1\n", "3\n"];
    var a := Answers(3, lines);
    ExampleNumberLines();
    NotANumberCases(3, "", "");
    ClassifyIgnoresSurroundingWhiteSpace(3, "", "abc", "\n");
    assert lines[0] == "" + "abc" + "\n";
    assert a == [NotANumber, TooBig, TooSmall, Win(3)];
    UntilWinFirst(a, 3);
    assert a[..4] == a;
  }
}
