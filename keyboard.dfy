/// The on-screen and computer keyboard: the fixed map from computer keys to note
/// names, the octave a typed key plays at, and the octaves of buttons rendered.
module Keyboard {

  /** The twelve note names, in pitch order: the buttons of one rendered octave. */
  const NoteNames: seq<string> :=
    ["c", "cSharp", "d", "dSharp", "e", "f", "fSharp", "g", "gSharp", "a", "aSharp", "b"]

  /** Computer keys to note names. */
  const KeyMap: map<string, string> := map[
    "a" := "c",
    "w" := "cSharp",
    "s" := "d",
    "e" := "dSharp",
    "d" := "e",
    "f" := "f",
    "t" := "fSharp",
    "g" := "g",
    "y" := "gSharp",
    "h" := "a",
    "u" := "aSharp",
    "j" := "b",
    "k" := "c",
    "o" := "cSharp",
    "l" := "d",
    "p" := "dSharp"
  ]

  /** The keys of the lower row, one per note name in order. */
  const LowerRowKeys: seq<string> := ["a", "w", "s", "e", "d", "f", "t", "g", "y", "h", "u", "j"]

  /** The keys that continue the row into the next octave. */
  const UpperRowKeys: seq<string> := ["k", "o", "l", "p"]

  /** The string the keydown handler searches for the key to decide on the octave shift. */
  const UpperKeys: string := "kolp"

  /** `sub` occurs in `s` starting at position i. */
  predicate OccursAt(s: string, sub: string, i: nat) {
    i + |sub| <= |s| && s[i..i + |sub|] == sub
  }

  /** The first position at or after `from` where `sub` occurs in `s`, or -1. This is
      JavaScript's `s.indexOf(sub, from)` for every `from <= |s|`; beyond the end JavaScript
      clamps `from` (so an empty `sub` is found at |s|), which the model does not, as only
      the search from 0 is used. */
  function IndexOfFrom(s: string, sub: string, from: nat): (r: int)
    decreases |s| - from
    ensures r == -1 <==> forall i: nat :: from <= i ==> !OccursAt(s, sub, i)
    ensures r != -1 ==> from <= r && OccursAt(s, sub, r)
    ensures r != -1 ==> forall i: nat :: from <= i < r ==> !OccursAt(s, sub, i)
  {
    if from + |sub| > |s| then -1
    else if OccursAt(s, sub, from) then from
    else IndexOfFrom(s, sub, from + 1)
  }

  /** JavaScript's `s.indexOf(sub)`: the first position where `sub` occurs in `s`, or -1. */
  function IndexOf(s: string, sub: string): (r: int)
    ensures r == -1 <==> forall i: nat :: !OccursAt(s, sub, i)
    ensures r != -1 ==> 0 <= r && OccursAt(s, sub, r) && forall i: nat :: i < r ==> !OccursAt(s, sub, i)
  {
    IndexOfFrom(s, sub, 0)
  }

  /** For a one-character key, searching the upper keys succeeds exactly for the upper row. */
  lemma UpperKeysSearch(key: string)
    requires |key| == 1
    ensures IndexOf(UpperKeys, key) != -1 <==> key in UpperRowKeys
  {
    var r := IndexOf(UpperKeys, key);
    if r != -1 {
      assert OccursAt(UpperKeys, key, r);
      assert key == [UpperKeys[r]];
    }
  }

  /** The lower row maps onto the twelve notes in order, the upper row onto the first
      four, and no other key is mapped. */
  lemma KeyMapLayout()
    ensures forall i :: 0 <= i < |LowerRowKeys| ==> KeyMap[LowerRowKeys[i]] == NoteNames[i]
    ensures forall i :: 0 <= i < |UpperRowKeys| ==> KeyMap[UpperRowKeys[i]] == NoteNames[i]
    ensures forall key :: key in KeyMap <==> key in LowerRowKeys || key in UpperRowKeys
  {
  }

  /** Every note a key produces is the note of some button. */
  lemma KeyMapNotesAreButtons()
    ensures forall key :: key in KeyMap ==> KeyMap[key] in NoteNames
  {
  }

  /** What a keydown leads to: no call, or a call with an octave and a note. */
  datatype KeyPress = Ignored | Pressed(octave: int, note: string)

  /** The keydown handler: a mapped key plays its note at the starting octave, or one
      octave higher for the upper row; any other key is ignored. */
  method OnKeyDown(key: string, startingOctave: int) returns (press: KeyPress)
    ensures press == Ignored <==> key !in KeyMap
    ensures key in KeyMap ==>
              press == Pressed(if key in UpperRowKeys then startingOctave + 1 else startingOctave, KeyMap[key])
  {
    // the mapped notes are non-empty strings, so the lookup is truthy exactly for mapped keys
    if key in KeyMap && KeyMap[key] != "" {
      var octave := startingOctave;
      UpperKeysSearch(key);
      if IndexOf(UpperKeys, key) != -1 {
        octave := octave + 1;
      }
      press := Pressed(octave, KeyMap[key]);
    } else {
      press := Ignored;
    }
  }

  /** Decimal digits of a natural number, as a template literal prints them. */
  function NatToString(n: nat): (s: string)
    ensures |s| >= 1 && forall i :: 0 <= i < |s| ==> '0' <= s[i] <= '9'
  {
    if n < 10 then [(n + 48) as char]
    else NatToString(n / 10) + [((n % 10) + 48) as char]
  }

  /** An integer as a template literal prints it: a minus sign exactly for negative
      numbers, then the digits. */
  function IntToString(i: int): (s: string)
    ensures |s| >= 1
    ensures s[0] == '-' <==> i < 0
  {
    if i < 0 then "-" + NatToString(-i) else NatToString(i)
  }

  /** Different numbers print differently. */
  lemma {:induction false} NatToStringInjective(m: nat, n: nat)
    requires NatToString(m) == NatToString(n)
    ensures m == n
  {
    var s := NatToString(m);
    NatToStringShort(m);
    NatToStringShort(n);
    if m >= 10 && n >= 10 {
      assert NatToString(m / 10) == s[..|s| - 1] == NatToString(n / 10);
      NatToStringInjective(m / 10, n / 10);
      assert m % 10 == n % 10 by {
        assert ((m % 10) + 48) as char == s[|s| - 1] == ((n % 10) + 48) as char;
      }
    } else if m < 10 && n < 10 {
      assert (m + 48) as char == s[0] == (n + 48) as char;
    }
  }

  /** Exactly the numbers below ten print as a single digit. */
  lemma NatToStringShort(n: nat)
    ensures |NatToString(n)| == 1 <==> n < 10
  {
    if n >= 10 {
      assert |NatToString(n / 10)| >= 1;
    }
  }

  lemma IntToStringInjective(m: int, n: int)
    requires IntToString(m) == IntToString(n)
    ensures m == n
  {
    var s := IntToString(m);
    if m < 0 && n < 0 {
      assert NatToString(-m) == s[1..] == NatToString(-n);
      NatToStringInjective(-m, -n);
    } else if m >= 0 && n >= 0 {
      NatToStringInjective(m, n);
    }
  }

  /** One rendered button: its element id, and the octave and note its click plays. */
  datatype KeyButton = KeyButton(id: string, octave: int, note: string)

  /** The twelve buttons of one octave, each with id note name followed by the octave. */
  function RenderKeyboardOctave(octave: int): (buttons: seq<KeyButton>)
    ensures |buttons| == |NoteNames|
    ensures forall i :: 0 <= i < |buttons| ==>
              buttons[i] == KeyButton(NoteNames[i] + IntToString(octave), octave, NoteNames[i])
  {
    var n := IntToString(octave);
    [ KeyButton("c" + n, octave, "c"),
      KeyButton("cSharp" + n, octave, "cSharp"),
      KeyButton("d" + n, octave, "d"),
      KeyButton("dSharp" + n, octave, "dSharp"),
      KeyButton("e" + n, octave, "e"),
      KeyButton("f" + n, octave, "f"),
      KeyButton("fSharp" + n, octave, "fSharp"),
      KeyButton("g" + n, octave, "g"),
      KeyButton("gSharp" + n, octave, "gSharp"),
      KeyButton("a" + n, octave, "a"),
      KeyButton("aSharp" + n, octave, "aSharp"),
      KeyButton("b" + n, octave, "b") ]
  }

  predicate IsLetter(c: char) {
    'a' <= c <= 'z' || 'A' <= c <= 'Z'
  }

  /** A note name is made of letters only. */
  predicate Letters(s: string) {
    forall i :: 0 <= i < |s| ==> IsLetter(s[i])
  }

  /** The number of letters a string starts with. */
  function LetterRun(w: string): (n: nat)
    ensures n <= |w|
  {
    if w == [] || !IsLetter(w[0]) then 0 else 1 + LetterRun(w[1..])
  }

  /** A word of letters followed by something that does not start with a letter:
      the leading run of letters is exactly the word. */
  lemma {:induction false} LetterRunOfWord(a: string, s: string)
    requires Letters(a) && s != [] && !IsLetter(s[0])
    ensures LetterRun(a + s) == |a|
  {
    if a == [] {
      assert a + s == s;
    } else {
      assert (a + s)[1..] == a[1..] + s;
      LetterRunOfWord(a[1..], s);
    }
  }

  /** Splitting a word made of letters followed by a printed number is unambiguous. */
  lemma SplitAtNumber(a: string, b: string, m: int, n: int)
    requires Letters(a) && Letters(b) && a + IntToString(m) == b + IntToString(n)
    ensures a == b && m == n
  {
    var s, t := IntToString(m), IntToString(n);
    assert !IsLetter(s[0]) && !IsLetter(t[0]) by {
      if m >= 0 { assert '0' <= NatToString(m)[0] <= '9'; }
      if n >= 0 { assert '0' <= NatToString(n)[0] <= '9'; }
    }
    LetterRunOfWord(a, s);
    LetterRunOfWord(b, t);
    var w := a + s;
    assert a == w[..|a|] == b;
    assert s == w[|a|..] == t;
    IntToStringInjective(m, n);
  }

  /** Button ids never repeat: different note or different octave gives a different id. */
  lemma ButtonIdsDistinct(o1: int, i1: int, o2: int, i2: int)
    requires 0 <= i1 < |NoteNames| && 0 <= i2 < |NoteNames|
    requires RenderKeyboardOctave(o1)[i1].id == RenderKeyboardOctave(o2)[i2].id
    ensures o1 == o2 && i1 == i2
  {
    NoteNamesAreWords();
    SplitAtNumber(NoteNames[i1], NoteNames[i2], o1, o2);
  }

  /** The note names are distinct words of letters. */
  lemma NoteNamesAreWords()
    ensures forall i :: 0 <= i < |NoteNames| ==> Letters(NoteNames[i])
    ensures forall i, j :: 0 <= i < j < |NoteNames| ==> NoteNames[i] != NoteNames[j]
  {
  }

  /** The render loop: one octave of buttons per i below numOctaves, for octave
      startingOctave + i. */
  method RenderKeyboard(startingOctave: int, numOctaves: int) returns (octaves: seq<seq<KeyButton>>)
    ensures |octaves| == if numOctaves > 0 then numOctaves else 0
    ensures forall i :: 0 <= i < |octaves| ==> octaves[i] == RenderKeyboardOctave(i + startingOctave)
  {
    octaves := [];
    var i := 0;
    while i < numOctaves
      invariant i == |octaves| && i <= (if numOctaves > 0 then numOctaves else 0)
      invariant forall j :: 0 <= j < i ==> octaves[j] == RenderKeyboardOctave(j + startingOctave)
    {
      octaves := octaves + [RenderKeyboardOctave(i + startingOctave)];
      i := i + 1;
    }
  }
}
