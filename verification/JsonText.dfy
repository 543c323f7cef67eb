/** JSON values as both services exchange them, and what happens to text on the way: the writer
    escapes it as UTF-16 code units, and the reader puts code points together again (section 7 of
    RFC 8259). */
module JsonText {

  /** A Python string: any code points, also surrogates on their own. */
  type CodePoint = c: nat | c < 0x11_0000
  type Unit = u: nat | u < 0x1_0000
  type Text = seq<CodePoint>

  /** Members of an object keep the distinction between integer and other number literals. */
  datatype Json =
    | JNull
    | JBool(flag: bool)
    | JInt(n: int)
    | JFloat(number: real)
    | JString(units: seq<Unit>)
    | JArray
    | JObject

  predicate High(c: nat) { 0xD800 <= c < 0xDC00 }
  predicate Low(c: nat) { 0xDC00 <= c < 0xE000 }
  predicate Surrogate(c: nat) { High(c) || Low(c) }

  ghost predicate Unicode(t: Text) { forall i :: 0 <= i < |t| ==> !Surrogate(t[i]) }

  const REPLACEMENT: CodePoint := 0xFFFD

  /** The escapes of one code point: itself, or a surrogate pair above U+FFFF. */
  function UnitsOf(c: CodePoint): seq<Unit> {
    if c < 0x1_0000 then [c]
    else [0xD800 + (c - 0x1_0000) / 0x400, 0xDC00 + (c - 0x1_0000) % 0x400]
  }

  function Written(t: Text): seq<Unit> {
    if t == [] then [] else UnitsOf(t[0]) + Written(t[1..])
  }

  function Pair(high: Unit, low: Unit): CodePoint
    requires High(high) && Low(low)
  {
    0x1_0000 + (high - 0xD800) * 0x400 + (low - 0xDC00)
  }

  /** Go joins pairs and replaces every surrogate left on its own. */
  function GoReads(u: seq<Unit>): Text
    decreases |u|
  {
    if u == [] then []
    else if High(u[0]) && |u| > 1 && Low(u[1]) then [Pair(u[0], u[1])] + GoReads(u[2..])
    else [if Surrogate(u[0]) then REPLACEMENT else u[0]] + GoReads(u[1..])
  }

  /** Python joins pairs and keeps every surrogate left on its own. */
  function PythonReads(u: seq<Unit>): Text
    decreases |u|
  {
    if u == [] then []
    else if High(u[0]) && |u| > 1 && Low(u[1]) then [Pair(u[0], u[1])] + PythonReads(u[2..])
    else [u[0]] + PythonReads(u[1..])
  }

  function Ascii(s: string): Text
    requires forall i :: 0 <= i < |s| ==> s[i] as int < 128
  {
    seq(|s|, i requires 0 <= i < |s| => s[i] as int)
  }

  /** What Go holds never contains a surrogate. */
  lemma {:induction false} GoReadsUnicode(u: seq<Unit>)
    ensures Unicode(GoReads(u)) && (GoReads(u) == [] <==> u == [])
    decreases |u|
  {
    if u != [] {
      if High(u[0]) && |u| > 1 && Low(u[1]) {
        GoReadsUnicode(u[2..]);
      } else {
        GoReadsUnicode(u[1..]);
      }
    }
  }

  lemma PairOfUnits(c: CodePoint)
    requires c >= 0x1_0000
    ensures var u := UnitsOf(c); High(u[0]) && Low(u[1]) && Pair(u[0], u[1]) == c
  {
  }

  lemma {:induction false} UnicodeArrives(t: Text)
    requires Unicode(t)
    ensures GoReads(Written(t)) == t && PythonReads(Written(t)) == t
  {
    if t != [] {
      UnicodeArrives(t[1..]);
      var u, rest := UnitsOf(t[0]), Written(t[1..]);
      if t[0] >= 0x1_0000 {
        PairOfUnits(t[0]);
        assert (u + rest)[2..] == rest;
      } else {
        assert (u + rest)[1..] == rest;
      }
    }
  }

  lemma WrittenEmpty(t: Text)
    ensures Written(t) == [] <==> t == []
  {
  }

  /** Text arrives in Go as Python wrote it exactly when it contains no surrogate. */
  lemma TextArrivesExactly(t: Text)
    ensures GoReads(Written(t)) == t <==> Unicode(t)
  {
    GoReadsUnicode(Written(t));
    if Unicode(t) { UnicodeArrives(t); }
  }

  /** A lone surrogate is one text on the Python side and another one in Go. */
  lemma LoneSurrogateChanges()
    ensures GoReads(Written([0xD800])) == [REPLACEMENT] != [0xD800]
  {
    assert Written([0xD800]) == [0xD800] by { assert [0xD800][1..] == []; }
    assert GoReads([0xD800]) == [REPLACEMENT];
  }
}
