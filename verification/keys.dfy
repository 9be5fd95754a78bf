/**
 * The key values that reach the keydown and keyup handlers of main.js, and the
 * classification of a key value into the logical keys the handlers react to:
 * the digits 1-5 (select a model), W/A/S/D (motion), T (cycle), X (toggle axes).
 */
module Keys {

  datatype Option<T> = None | Some(value: T)

  /** A digit key that selects a model: 1-4 select a human, 5 the trashcan. */
  type DigitValue = n: int | 1 <= n <= 5 witness 1

  datatype Key = Digit(n: DigitValue) | W | A | S | D | T | X | Other

  predicate IsLetter(k: Key) {
    k.W? || k.A? || k.S? || k.D? || k.T? || k.X?
  }

  /** The character of decimal digit `n`. */
  function DigitChar(n: int): (c: char)
    requires 0 <= n <= 9
    ensures '0' <= c <= '9' && c as int - '0' as int == n
  {
    ('0' as int + n) as char
  }

  /** Lower-case spelling of a letter key, as the handlers' `switch` cases write it. */
  function LetterChar(k: Key): char
    requires IsLetter(k)
  {
    match k
    case W => 'w'
    case A => 'a'
    case S => 's'
    case D => 'd'
    case T => 't'
    case X => 'x'
  }

  /** Upper-case counterpart of an ASCII lower-case letter. */
  function Upper(c: char): (u: char)
    requires 'a' <= c <= 'z'
    ensures 'A' <= u <= 'Z'
  {
    (c as int - 32) as char
  }

  /** `toLowerCase` restricted to ASCII: A-Z become a-z, every other character stays. */
  function LowerChar(c: char): char {
    if 'A' <= c <= 'Z' then (c as int + 32) as char else c
  }

  function ToLower(s: string): (r: string)
    ensures |r| == |s|
    ensures forall i :: 0 <= i < |s| ==> r[i] == LowerChar(s[i])
  {
    if s == [] then [] else [LowerChar(s[0])] + ToLower(s[1..])
  }

  /**
   * `newIndex === 4 ? -1 : newIndex`: the model index for `parseInt(key) - 1`,
   * where the key 5 (newIndex 4) stands for the trashcan.
   */
  function ModelIndex(newIndex: int): int {
    if newIndex == 4 then -1 else newIndex
  }

  /** The index the digit key `n` selects: 1-4 a human (0-3), 5 the trashcan (-1). */
  function DigitIndex(n: DigitValue): (i: int)
    ensures -1 <= i <= 3
    ensures i == -1 <==> n == 5
    ensures i != -1 ==> DigitChar(i + 1) == DigitChar(n)
  {
    ModelIndex(n - 1)
  }

  /**
   * The logical key of a key value: first the digit test of the keydown handler,
   * then the case-folded `switch`. The digit test is the intended one: only the
   * one-character keys 1-5 select a model. DigitGuardAsWritten is the test as
   * the source writes it, and DigitSelectionDeparts says where the two differ.
   */
  function Classify(key: string): (k: Key)
    ensures k.Digit? <==> |key| == 1 && '1' <= key[0] <= '5'
    ensures k.Digit? ==> key == [DigitChar(k.n)]
  {
    if |key| == 1 && '1' <= key[0] <= '5' then Digit(key[0] as int - '0' as int)
    else
      var lower := ToLower(key);
      if lower == "w" then W
      else if lower == "a" then A
      else if lower == "s" then S
      else if lower == "d" then D
      else if lower == "t" then T
      else if lower == "x" then X
      else Other
  }

  /** Case folding yields the one letter `c` exactly from `c` and its upper-case form. */
  lemma ToLowerSingle(key: string, c: char)
    requires 'a' <= c <= 'z'
    ensures ToLower(key) == [c] <==> key == [c] || key == [Upper(c)]
  {
  }

  /** Exactly the one-character key `n` classifies as Digit(n). */
  lemma ClassifyDigit(key: string, n: DigitValue)
    ensures Classify(key) == Digit(n) <==> key == [DigitChar(n)]
  {
  }

  /** A letter key is recognised in either case, and only as a single character. */
  lemma ClassifyLetter(key: string, k: Key)
    requires IsLetter(k)
    ensures Classify(key) == k <==> key == [LetterChar(k)] || key == [Upper(LetterChar(k))]
  {
  }

  // ---------------------------------------------------------------------------
  // The digit test as main.js:43-44 writes it: a lexicographic string comparison
  // `e.key >= '1' && e.key <= '5'` followed by `parseInt(e.key)`.

  /** JavaScript's `<=` on two strings: lexicographic order of their characters. */
  function StringLessEq(a: string, b: string): bool
    decreases |a|
  {
    if a == [] then true
    else if b == [] then false
    else if a[0] != b[0] then a[0] < b[0]
    else StringLessEq(a[1..], b[1..])
  }

  /** `parseInt` of a string that starts with a decimal digit: the value of its leading run of digits. */
  function LeadingNumber(s: string, acc: nat): nat
    decreases |s|
  {
    if s != [] && '0' <= s[0] <= '9' then LeadingNumber(s[1..], acc * 10 + (s[0] as int - '0' as int))
    else acc
  }

  predicate DigitGuardAsWritten(key: string) {
    StringLessEq("1", key) && StringLessEq(key, "5")
  }

  /** The model index the keydown handler selects for `key` as written, if its digit test passes. */
  function DigitSelectionAsWritten(key: string): (sel: Option<int>)
    ensures sel.Some? <==> (|key| >= 1 && '1' <= key[0] <= '4') || key == "5"
    ensures sel.Some? ==> sel.value >= -1
  {
    DigitGuardAsWrittenIff(key);
    if DigitGuardAsWritten(key) then
      var newIndex := LeadingNumber(key, 0) - 1;
      Some(ModelIndex(newIndex))
    else None
  }

  /** The model index the keydown handler selects for `key`, with the digit test read as intended. */
  function DigitSelection(key: string): (sel: Option<int>)
    ensures sel.Some? ==> -1 <= sel.value <= 3
    ensures sel.Some? <==> |key| == 1 && '1' <= key[0] <= '5'
  {
    match Classify(key)
    case Digit(n) => Some(DigitIndex(n))
    case _ => None
  }

  /** The written test accepts every key that starts with 1-4, whatever follows, and the key "5". */
  lemma DigitGuardAsWrittenIff(key: string)
    ensures DigitGuardAsWritten(key) <==> (|key| >= 1 && '1' <= key[0] <= '4') || key == "5"
  {
    if |key| >= 1 && key[0] == '5' && |key| > 1 {
      assert key[1..] != [];
      assert !StringLessEq(key[1..], "5"[1..]);
    }
  }

  /** On one-character keys, the written test and the intended one select the same model. */
  lemma DigitSelectionAgrees(key: string)
    requires |key| == 1
    ensures DigitSelectionAsWritten(key) == DigitSelection(key)
  {
    DigitGuardAsWrittenIff(key);
    if '1' <= key[0] <= '5' {
      assert key[1..] == [];
      assert LeadingNumber(key, 0) == LeadingNumber(key[1..], key[0] as int - '0' as int);
    }
  }

  /**
   * The written test and the intended one differ exactly on the keys of two or
   * more characters that start with 1-4: the written test selects a model for
   * them, the handler model treats them as no digit (and as no letter either).
   */
  lemma DigitSelectionDeparts(key: string)
    ensures DigitSelectionAsWritten(key) != DigitSelection(key) <==> |key| >= 2 && '1' <= key[0] <= '4'
    ensures |key| >= 2 ==> Classify(key) == Other
  {
    if |key| == 1 {
      DigitSelectionAgrees(key);
    }
    if |key| >= 2 {
      var lower := ToLower(key);
      assert |lower| >= 2;
    }
  }

  /** The key value "1a" passes the written test and selects Human 1; the handler model ignores it. */
  lemma DigitLedKey()
    ensures DigitSelectionAsWritten("1a") == Some(0)
    ensures Classify("1a") == Other
  {
  }

  /** The key value "12" passes the written test and selects index 11, outside the four humans. */
  lemma MultiCharacterDigitKey()
    ensures DigitSelectionAsWritten("12") == Some(11)
    ensures DigitSelection("12") == None
  {
  }
}
