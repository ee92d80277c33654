# rust-learn, modelled in Dafny

This project models the runnable logic of the `rust-learn` tutorial programs and proves what
each program promises.

- **The number-guessing game** (`guessing_game`). A secret in 1..5 is drawn once. Each line
  read is trimmed and parsed as a `u32`. Text that does not parse is answered "Not a number!"
  and the game asks again. A number is compared with the secret, giving "Too big!", "Too small!"
  or the win message, which ends the game.
  - `GuessingGame.Classify` is the decision for one line.
  - `GuessingGame.Session` is the game over a finite sequence of input lines.
  - `GuessingGame.Play` is `main`'s loop as an imperative method, proved equal to `Session`.
- **The Rust library behaviour the game relies on** (`RustStd`):
  - `str::trim`, using the Unicode White_Space property;
  - `u32: FromStr`: an optional `+`, ASCII digits, at most 4294967295, with the error kinds
    `Empty`, `InvalidDigit` and `PosOverflow`;
  - `Option::unwrap`, `unwrap_or_default` and `Result::unwrap`/`expect`, with a panic as the
    error path;
  - `String::len` as a UTF-8 byte count;
  - `String::push_str` on a mutable `String` (the class `StringBuffer`).
- **`common_programming_concepts`** (`CommonConcepts`):
  - the if-expression;
  - the `loop`, break-with-value, `while`, `for … iter()` and `for … rev()` loops, as methods
    that return the values they print;
  - `add` as `i32` addition, `five`, and the block expressions;
  - the `parse` calls in `data_types` and the `[3; 5]` array.
- **`using_structs_to_structure_related_data`** (`Structs`):
  - `Rectangle::{calculate, can_fit, square}`;
  - the four `area` functions;
  - the `User` struct: field assignment, field-init shorthand and struct update.
- **`enums_and_pattern_matching`** (`Enums`):
  - the `Coin` match;
  - the `if let` on `Console`;
  - enum variants with payloads;
  - `Option` accessors.
- **`understanding_ownership`** (`Ownership`):
  - `fn1`, which measures a borrowed `String`;
  - `fn2`, which appends to a `&mut String` in place;
  - the identity function `s` that hands ownership back.

`str::trim` uses the full Unicode White_Space set, as Rust does, not just ASCII white space.

Printing is modelled as data. Each game response is a `Response` value, and each tutorial loop
returns the sequence of values it prints.

## Model

| member | source | states |
|---|---|---|
| RustStd.TrimSpec | guessing_game/src/main.rs:31 | `trim` returns a slice of the input; everything removed is White_Space; the result neither starts nor ends with White_Space |
| RustStd.TrimIgnoresPadding | guessing_game/src/main.rs:31 | Surrounding a text with White_Space on either side does not change what `trim` returns |
| RustStd.ParseU32Spec | guessing_game/src/main.rs:31 | `parse::<u32>` succeeds exactly on an optional `+` followed by one or more ASCII digits whose value is at most 4294967295; it then yields that decimal value |
| RustStd.ParseU32Errors | guessing_game/src/main.rs:31-36 | Empty text is an `Empty` error; a leading `-` is an `InvalidDigit` error; all digits with a value above 4294967295 is a `PosOverflow` error |
| RustStd.AccumulateDigitsSpec | guessing_game/src/main.rs:31 | The digit-by-digit accumulation fails exactly on a non-digit or when the running value passes `u32::MAX`; otherwise it gives `acc * 10^n` plus the value of the digits |
| RustStd.ParseU32ToDecimal | guessing_game/src/main.rs:31 | Every `u32` written in decimal parses back to itself (round trip) |
| RustStd.Unwrap | enums_and_pattern_matching/src/main.rs:83-84 | `unwrap` returns the carried value exactly when the option is `Some`, and panics on `None` |
| RustStd.UnwrapOrDefault | enums_and_pattern_matching/src/main.rs:98 | `unwrap_or_default` returns the carried text on `Some` and the empty `String` on `None` |
| RustStd.UnwrapResult | common_programming_concepts/src/main.rs:123-136 | `unwrap`/`expect` on a parse result returns the value exactly when it is `Ok`, and panics otherwise |
| RustStd.ByteLength | understanding_ownership/src/main.rs:26 | `len` counts UTF-8 bytes: between the character count and 4 times it, and equal to the character count exactly when every character is ASCII |
| RustStd.StringBuffer.From | understanding_ownership/src/main.rs:36 | `String::from(s)` holds `s` |
| RustStd.StringBuffer.PushStr | understanding_ownership/src/main.rs:38 | `push_str(t)` leaves the old contents followed by `t` |
| GuessingGame.ClassifySpec | guessing_game/src/main.rs:31-46 | A line is "Not a number!" exactly when its trimmed text is not `u32` text. Otherwise it is "Too big!", "Too small!" or a win exactly as the number's value is above, below or equal to the secret |
| GuessingGame.WinOnlyOnEqualGuess | guessing_game/src/main.rs:42-45 | A line wins exactly when it parses to the secret, and the win message carries the secret |
| GuessingGame.ClassifyIgnoresSurroundingWhiteSpace | guessing_game/src/main.rs:31 | White_Space around a line, such as the newline `read_line` keeps, does not change its response |
| GuessingGame.NumericGuessComparedNormally | guessing_game/src/main.rs:39-46 | Any `u32`, written in decimal and padded with White_Space, is compared with the secret as it is; there is no range check |
| GuessingGame.OutOfRangeGuesses | guessing_game/src/main.rs:13-47 | For a secret in 1..5, the inputs 0, 6 and 100 get "Too small!", "Too big!" and "Too big!", with no out-of-range message |
| GuessingGame.NotANumberCases | guessing_game/src/main.rs:31-36 | Empty text, a blank line, letters, `-1`, 4294967296, any trimmed text starting with `-` and any digit string above 4294967295 are all "Not a number!" |
| GuessingGame.EndOfInputSpins | guessing_game/src/main.rs:13-47 | Any number of reads at end of input, each leaving an empty buffer, are all answered "Not a number!", and the game never ends won |
| GuessingGame.BlankLineIsNotANumber | guessing_game/src/main.rs:20-36 | A line of only White_Space is "Not a number!". This includes the empty buffer `read_line` leaves at end of input |
| GuessingGame.Answers | guessing_game/src/main.rs:11-47 | Every line gets the answer `Classify` gives it, in order, against the one secret bound before the loop |
| GuessingGame.UntilWin | guessing_game/src/main.rs:13-47 | The responses given are a prefix of the answers |
| GuessingGame.UntilWinEnding | guessing_game/src/main.rs:13-47 | The loop ends won exactly when some answer is a win. It stops at the first win and gives no win before it. If it runs out of input, it gave every answer and none was a win |
| GuessingGame.SessionAnswersInOrder | guessing_game/src/main.rs:11-47 | The k-th response of a session is the response to the k-th line, judged against the same secret |
| GuessingGame.SessionWonOnFirstWin | guessing_game/src/main.rs:39-46 | A session is won exactly when some line wins. It ends on the first winning line, whose message is `Win(secret)`. No earlier response is a win |
| GuessingGame.SessionEndedAnsweredAll | guessing_game/src/main.rs:13-47 | A session that runs out of input has answered every line, and no line won |
| GuessingGame.NotANumbersNeverEnd | guessing_game/src/main.rs:31-36 | Any amount of bad input only produces "Not a number!" answers and never ends the game |
| GuessingGame.NotANumberIsSkipped | guessing_game/src/main.rs:33-36 | After "Not a number!" the loop `continue`s: the rest of the session is the session of the remaining lines |
| GuessingGame.ClassifyNumberLine | guessing_game/src/main.rs:31-46 | A typed number followed by Enter is compared with the secret as it is |
| GuessingGame.ExampleNumberLines | guessing_game/src/main.rs:39-46 | With secret 3, the lines "10", "1" and "3" get "Too big!", "Too small!" and the win |
| GuessingGame.ExampleSession | guessing_game/src/main.rs:13-47 | With secret 3, the input "abc", "10", "1", "3" gets the four answers in order and the game ends won |
| GuessingGame.Respond | guessing_game/src/main.rs:31-46 | One pass of the loop body after the read (`trim`, `parse`, `continue` on error, `cmp`) gives the response `Classify` defines |
| GuessingGame.Play | guessing_game/src/main.rs:13-47 | `main`'s loop over the lines produces exactly `Session`'s responses and ending |
| CommonConcepts.IfExpression | common_programming_concepts/src/main.rs:33 | The if-expression is 5 exactly when `is_good_looking`, and 6 exactly when not |
| CommonConcepts.RangeRev | common_programming_concepts/src/main.rs:72 | `(lo..hi).rev()` yields `hi - lo` values (none if `lo >= hi`), the k-th being `hi - 1 - k` |
| CommonConcepts.RangeInclusiveRev | common_programming_concepts/src/main.rs:72-73 | `(lo..=hi).rev()` starts at `hi` and ends at `lo` |
| CommonConcepts.LoopCountdown | common_programming_concepts/src/main.rs:40-48 | The `loop` countdown prints `start` down to 1 and leaves the counter at 0, or at `start` if `start` is not positive |
| CommonConcepts.WhileCountdown | common_programming_concepts/src/main.rs:60-64 | The `while` countdown prints the same values and ends with the counter at 0 for a positive start |
| CommonConcepts.LoopWithValue | common_programming_concepts/src/main.rs:51-58 | The break-with-value loop stops with `counter == 10` and yields `counter * 2 == 20` |
| CommonConcepts.IterVisits | common_programming_concepts/src/main.rs:66-69 | `for e in arr.iter()` visits every element, first to last |
| CommonConcepts.RevVisits | common_programming_concepts/src/main.rs:72-74 | `for e in (lo..hi).rev()` visits what `(lo..hi).rev()` yields, in that order |
| CommonConcepts.ControlFlow | common_programming_concepts/src/main.rs:19-75 | With the program's constants, `a` is 5. Both countdowns print 3, 2, 1. The loop returns 20. The array loop prints 1, 2, 3 and the reversed range prints 2, 1 |
| CommonConcepts.CountdownFromThree | common_programming_concepts/src/main.rs:40-48 | The countdown from 3 prints 3, 2, 1 |
| CommonConcepts.RevRangeExcludesEnd | common_programming_concepts/src/main.rs:72-73 | `(1..3).rev()` yields 2, 1 and never 3 |
| CommonConcepts.InclusiveRevFromThree | common_programming_concepts/src/main.rs:72-73 | `(1..=3).rev()` yields 3, 2, 1 |
| CommonConcepts.Add | common_programming_concepts/src/main.rs:83-86 | In a debug build, `a + b` in `i32` is the integer sum exactly when that sum fits in `i32`; otherwise it is the overflow panic |
| CommonConcepts.AddBuildsAgree | common_programming_concepts/src/main.rs:83-86 | A release build, which wraps around, gives the same sum as a debug build whenever the sum fits. Where the debug build panics, the release build is off by exactly 2^32 |
| CommonConcepts.Five | common_programming_concepts/src/main.rs:114-118 | `five()` returns 5: the `6;` statement is discarded |
| CommonConcepts.Functions | common_programming_concepts/src/main.rs:77-119 | `add(1, 2)` gives 3, the block `{ b + c }` gives 3, `{ 1 + 1 }` gives 2 and `five()` gives 5 |
| CommonConcepts.Repeat | common_programming_concepts/src/main.rs:221 | `[v; n]` has `n` elements, each equal to `v` |
| CommonConcepts.ParseSmallNumbers | common_programming_concepts/src/main.rs:123-136 | "4" and "42" parse as the `u32` values 4 and 42 |
| CommonConcepts.DataTypes | common_programming_concepts/src/main.rs:121-224 | `x`, `y` and `z` are 4, 42 and 4, no `unwrap`/`expect` panics, and `[3; 5]` equals `[3, 3, 3, 3, 3]` |
| Structs.Square | using_structs_to_structure_related_data/src/main.rs:37-42 | `square(size)` has width and height both `size` |
| Structs.CalculateIsProduct | using_structs_to_structure_related_data/src/main.rs:28-30 | `calculate` is `width * height`; swapping the sides does not change it; a non-zero width makes it at least the height |
| Structs.CanFitIgnoresOthersWidth | using_structs_to_structure_related_data/src/main.rs:32-34 | `can_fit` as written never depends on `others.width` |
| Structs.CanFitAdmitsWiderRectangle | using_structs_to_structure_related_data/src/main.rs:32-34 | As written, a 200 x 1 rectangle "fits" in a 10 x 10 one although its area is larger; the side-by-side comparison rejects it |
| Structs.CanFitBothSidesIsPartialOrder | using_structs_to_structure_related_data/src/main.rs:32-34 | The corrected comparison is reflexive, antisymmetric and transitive |
| Structs.CanFitBothSidesBoundsArea | using_structs_to_structure_related_data/src/main.rs:32-34 | Under the corrected comparison, a rectangle that fits has an area no larger |
| Structs.EqualSquaresFit | using_structs_to_structure_related_data/src/main.rs:51-55 | A 10 x 10 rectangle fits in a 10 x 10 one, by either comparison |
| Structs.SquareArea | using_structs_to_structure_related_data/src/main.rs:37-66 | The area of `square(size)` is `size * size`, and `square(20)` is 20 x 20 |
| Structs.MethodSyntax | using_structs_to_structure_related_data/src/main.rs:45-66 | `method_syntax` prints 100, then `true`, then a 20 x 20 rectangle |
| Structs.AreasAgree | using_structs_to_structure_related_data/src/main.rs:77-105 | `area0` is the product of the sides, and `area0`, `area1`, `area2`, `area3` and `calculate` agree on the same sides |
| Structs.ExampleProgramUsingStructs | using_structs_to_structure_related_data/src/main.rs:74-105 | The four areas printed are 100, 400, 900 and 1600 |
| Structs.WithEmail | using_structs_to_structure_related_data/src/main.rs:128-160 | Assigning `email`, or building `User { email, ..u }`, sets `email` and keeps the other three fields |
| Structs.CopyIdentity | using_structs_to_structure_related_data/src/main.rs:143-152 | `copy_identity(n)` has user name `n` and the fixed literals in the other fields |
| Structs.WithEmailOverwrites | using_structs_to_structure_related_data/src/main.rs:128-160 | A second email update replaces the first; updating to the same email changes nothing |
| Structs.DefiningAndInstantiatingStructs | using_structs_to_structure_related_data/src/main.rs:120-170 | It builds `user` with the new email and the other fields unchanged. `user2` has user name "jun_pogi". `user3` takes the new email and every other field from `user2`. The hero is ("Superman", "Awesomeness") |
| Enums.ValueInCents | enums_and_pattern_matching/src/main.rs:31-41 | The exhaustive `match` gives every coin a value in {1, 5, 10, 25} |
| Enums.CoinWorth | enums_and_pattern_matching/src/main.rs:31-41 | Exactly 1, 5, 10 and 25 cents are the value of some coin |
| Enums.ValueInCentsRoundTrip | enums_and_pattern_matching/src/main.rs:31-41 | Coin to cents and back gives the same coin, so no two coins share a value |
| Enums.MatchControlFlowOperator | enums_and_pattern_matching/src/main.rs:23-47 | Penny, Nickel, Dime and Quarter give 1, 5, 10 and 25 |
| Enums.IfLetMessages | enums_and_pattern_matching/src/main.rs:12-21 | Exactly one of the two `if let` branches runs: "Fave!" exactly for PS5, the other message exactly for Xbox |
| Enums.PS5IsTheFave | enums_and_pattern_matching/src/main.rs:14-20 | With `fave = PS5` only "Fave!" is printed |
| Enums.DefiningAnEnum | enums_and_pattern_matching/src/main.rs:49-107 | `ip1` is (V4, "127.0.0.1"). `V4(127, 0, 0, 1)` carries those four octets and `V6("::1")` carries its string. `Some(5).unwrap()` is 5, `unwrap_or_default` on `Some("Fire")` is "Fire", and `p2.lambo` is `None` |
| Enums.OptionAccessors | enums_and_pattern_matching/src/main.rs:83-98 | `unwrap` on `Some(x)` gives `x` and panics on `None`; `unwrap_or_default` gives the text or "" |
| Ownership.Fn2 | understanding_ownership/src/main.rs:36-41 | `fn2` appends "test" in place: the old contents stay a prefix and grow by 4 characters and by 4 bytes |
| Ownership.ByteLengthConcat | understanding_ownership/src/main.rs:37-39 | The byte length of `s + t` is the byte length of `s` plus that of `t` |
| Ownership.ReferencesAndBorrowing | understanding_ownership/src/main.rs:21-46 | `fn1(&s1)` is 5, `s1` is still "hello" after the borrow, and `s3` is "hellotest" after `fn2` |
| Ownership.ReturnOfOwnership | understanding_ownership/src/main.rs:66-74 | `a = s(a)` gives back "test" unchanged |

## Left out

- The random draw of the secret (`rand::thread_rng().gen_range(1, 6)`) is foreign code. The
  secret is a parameter, and `Play` requires it to be in 1..5.
- `io::stdin().read_line` is I/O. The lines it would read are a finite sequence. Running out of
  lines stands for a read failure, after which `expect` aborts the program.
- At real end of input, `read_line` returns `Ok(0)` and leaves the buffer empty. The empty text
  then parses as "Not a number!", so the program asks again forever. One might expect end of
  input to end the game, as a read failure does; the code does not. `EndOfInputSpins` states
  what the code does. The model's input is a finite sequence of lines, and `Session` and `Play`
  stop where it ends (see "## Findings").
- Console text is not modelled: the banner, prompt and echoed "You guessed: …", the emoji,
  `{:?}`/`{:#?}` formatting, and the "additionnal stuff to do: " printed for a Quarter. Responses
  and printed values are data instead.
- Floating-point values and tuples containing floats in `data_types`
  (common_programming_concepts/src/main.rs:176-218) have no modelled behaviour.
- The integer-type declarations, `variables()`, and the scalar and compound type examples that
  only print constants are not modelled.
- Structs.Calculate: does not model `u32` multiplication overflow. It requires that the product
  fits, because the program promises nothing there (a debug build panics, a release build wraps).
- Structs.Area0: same precondition as `Calculate`, for the same reason.
- Structs.Area1: same precondition as `Calculate`, for the same reason.
- Structs.Area2: same precondition as `Calculate`, for the same reason.
- Structs.Area3: same precondition as `Calculate`, for the same reason.
- `Rectangle::another` and `IpAddrKindCon::show` have empty bodies and nothing to model.
- CommonConcepts.Add: models only the debug build, which panics on `i32` overflow. A release
  build wraps around instead; `AddWrapping` models that, and `AddBuildsAgree` relates the two.
  The program only calls `add(1, 2)`, which fits in either build.
- Ownership, move and borrow checking, including `transfer_of_ownership`, are compile-time
  rules of the language, not run-time behaviour. `fn1` only reads its argument; `Fn1` and
  `GiveBack` are plain functions on values.
- managing_growing_projects is not part of this model: it only shows module paths, visibility
  and re-exports, and its functions are empty.

## Findings

| source | as written | input that shows it | evidently intended | confidence | as-written member | corrected member |
|---|---|---|---|---|---|---|
| using_structs_to_structure_related_data/src/main.rs:33 | `can_fit` compares both `self.width` and `self.height` with `others.height`; `others.width` is never read | `Rectangle(10, 10).can_fit(&Rectangle(200, 1))` is true, although 200 x 1 has the larger area | `self.width >= others.width && self.height >= others.height` | high, not executed | Structs.CanFitAdmitsWiderRectangle | Structs.CanFitBothSidesBoundsArea |
| common_programming_concepts/src/main.rs:72-73 | `for e in (1..3).rev()`, with a comment saying it prints 3 down to 1 | the half-open range `1..3` yields 2 then 1, never 3 | `(1..=3).rev()`, which yields 3, 2, 1 | high, not executed | CommonConcepts.RevRangeExcludesEnd | CommonConcepts.InclusiveRevFromThree |
| guessing_game/src/main.rs:20-36 | At end of input `read_line` returns `Ok(0)` with an empty `guess`; `""` fails to parse, so the loop prints "Not a number!" and reads again | closing standard input (Ctrl-D) at the prompt | end of input ends the game, as the `expect("Failed to read line")` on a failed read intends | medium, not executed | GuessingGame.EndOfInputSpins | GuessingGame.SessionEndedAnsweredAll |
