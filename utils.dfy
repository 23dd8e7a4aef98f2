/**
 * The two string utilities of the library: the HTML attribute serializer
 * (`attributesToString`) and the whitespace normaliser (`stripWhitespace`).
 */
module Utils {
  import opened Values

  // ---------------------------------------------------------------------
  // Attribute serializer
  // ---------------------------------------------------------------------

  /** A plain object of HTML attributes, as its entries in iteration order. */
  type Attrs = seq<(string, Value)>

  /**
   * The text one non-null entry contributes: the bare key for an empty
   * string, otherwise `key="value"` with the value copied unescaped.
   */
  function Entry(key: string, value: Value): (r: string)
    ensures |key| <= |r| && r[..|key|] == key
    ensures |r| == |key| <==> value == Str("")
    ensures value.Str? && value.s != "" ==> r[|key|..] == "=\"" + value.s + "\""
  {
    if value == Str("") then key else key + "=\"" + JsString(value) + "\""
  }

  /** The entries the serializer emits, in input order; null values are skipped. */
  function AttrEntries(attrs: Attrs): seq<string>
  {
    if |attrs| == 0 then []
    else
      var (key, value) := attrs[|attrs| - 1];
      AttrEntries(attrs[..|attrs| - 1]) + (if value == Null then [] else [Entry(key, value)])
  }

  /** What `attributesToString` returns. */
  function AttrString(attrs: Attrs): string {
    Join(AttrEntries(attrs), " ")
  }

  /** Serializing a concatenation emits the two parts' entries in order. */
  lemma {:induction false} AttrEntriesAppend(a: Attrs, b: Attrs)
    ensures AttrEntries(a + b) == AttrEntries(a) + AttrEntries(b)
    decreases |b|
  {
    if |b| == 0 {
      assert a + b == a;
    } else {
      var b' := b[..|b| - 1];
      assert (a + b)[..|a + b| - 1] == a + b';
      AttrEntriesAppend(a, b');
      assert b[..|b| - 1] == b';
    }
  }

  /** What a single entry contributes: nothing for null, the bare key for '', else key="value". */
  lemma {:induction false} AttrEntriesSingle(key: string, value: Value)
    ensures value == Null ==> AttrEntries([(key, value)]) == []
    ensures value == Str("") ==> AttrEntries([(key, value)]) == [key]
    ensures value != Null && value != Str("") ==>
              AttrEntries([(key, value)]) == [key + "=\"" + JsString(value) + "\""]
  {
    assert [(key, value)][..0] == [];
  }

  /** Prepending an entry: a null adds nothing; any other value adds its text, one space ahead. */
  lemma {:induction false} AttrStringCons(key: string, value: Value, rest: Attrs)
    ensures value == Null ==> AttrString([(key, value)] + rest) == AttrString(rest)
    ensures value != Null && AttrEntries(rest) == [] ==>
              AttrString([(key, value)] + rest) == Entry(key, value)
    ensures value != Null && AttrEntries(rest) != [] ==>
              AttrString([(key, value)] + rest) == Entry(key, value) + " " + AttrString(rest)
  {
    AttrEntriesAppend([(key, value)], rest);
    AttrEntriesSingle(key, value);
    if value == Null {
      assert AttrEntries([(key, value)] + rest) == [] + AttrEntries(rest);
      assert [] + AttrEntries(rest) == AttrEntries(rest);
    }
    if value != Null && AttrEntries(rest) != [] {
      JoinAppend([Entry(key, value)], AttrEntries(rest), " ");
    }
  }

  /** Every emitted entry is the text of one non-null input entry. */
  lemma {:induction false} AttrEntriesFromNonNull(attrs: Attrs, k: nat)
    requires k < |AttrEntries(attrs)|
    ensures exists i :: 0 <= i < |attrs| && attrs[i].1 != Null &&
                        AttrEntries(attrs)[k] == Entry(attrs[i].0, attrs[i].1)
    decreases |attrs|
  {
    var n := |attrs|;
    var prefix := attrs[..n - 1];
    if k < |AttrEntries(prefix)| {
      AttrEntriesFromNonNull(prefix, k);
      var i :| 0 <= i < |prefix| && prefix[i].1 != Null &&
               AttrEntries(prefix)[k] == Entry(prefix[i].0, prefix[i].1);
      assert attrs[i] == prefix[i];
    } else {
      assert AttrEntries(attrs)[k] == Entry(attrs[n - 1].0, attrs[n - 1].1);
    }
  }

  /** An entry whose value is null contributes nothing: removing it leaves the output as it was. */
  lemma {:induction false} NullEntryIgnored(attrs: Attrs, i: nat)
    requires i < |attrs| && attrs[i].1 == Null
    ensures AttrEntries(attrs) == AttrEntries(attrs[..i] + attrs[i + 1..])
    ensures AttrString(attrs) == AttrString(attrs[..i] + attrs[i + 1..])
  {
    assert attrs == attrs[..i] + [attrs[i]] + attrs[i + 1..];
    AttrEntriesAppend(attrs[..i] + [attrs[i]], attrs[i + 1..]);
    AttrEntriesAppend(attrs[..i], [attrs[i]]);
    AttrEntriesAppend(attrs[..i], attrs[i + 1..]);
    AttrEntriesSingle(attrs[i].0, attrs[i].1);
    assert AttrEntries(attrs[..i] + [attrs[i]]) == AttrEntries(attrs[..i]);
  }

  /** The example of the serializer's documentation: `{ a:1, b:'', c:null }`. */
  lemma {:induction false} AttrStringExample()
    ensures AttrString([("a", Num(1)), ("b", Str("")), ("c", Null)]) == "a=\"1\" b"
  {
    var attrs := [("a", Num(1)), ("b", Str("")), ("c", Null)];
    assert attrs == [("a", Num(1))] + [("b", Str(""))] + [("c", Null)];
    AttrEntriesAppend([("a", Num(1))] + [("b", Str(""))], [("c", Null)]);
    AttrEntriesAppend([("a", Num(1))], [("b", Str(""))]);
    AttrEntriesSingle("a", Num(1));
    AttrEntriesSingle("b", Str(""));
    AttrEntriesSingle("c", Null);
    assert JsString(Num(1)) == "1";
    assert Entry("a", Num(1)) == "a=\"1\"";
    assert AttrEntries([("a", Num(1))] + [("b", Str(""))]) == ["a=\"1\""] + ["b"];
    assert AttrEntries(attrs) == ["a=\"1\""] + ["b"] + [];
    JoinAppend(["a=\"1\""], ["b"], " ");
  }

  /** `attributesToString`: push each non-null entry's text, then join with spaces. */
  method AttributesToString(attrs: Attrs) returns (r: string)
    ensures r == AttrString(attrs)
  {
    var attrList: seq<string> := [];
    var i := 0;
    while i < |attrs|
      invariant 0 <= i <= |attrs|
      invariant attrList == AttrEntries(attrs[..i])
    {
      var (key, value) := attrs[i];
      if value != Null {
        attrList := attrList + [Entry(key, value)];
      }
      assert attrs[..i + 1][..i] == attrs[..i];
      i := i + 1;
    }
    assert attrs[..i] == attrs;
    r := Join(attrList, " ");
  }

  // ---------------------------------------------------------------------
  // Whitespace normaliser
  // ---------------------------------------------------------------------

  /** The characters of the regular-expression class `\s`, which `trim` also removes. */
  predicate IsSpace(c: char) {
    var n := c as int;
    n == 0x09 || n == 0x0A || n == 0x0B || n == 0x0C || n == 0x0D || n == 0x20
    || n == 0xA0 || n == 0x1680 || (0x2000 <= n <= 0x200A)
    || n == 0x2028 || n == 0x2029 || n == 0x202F || n == 0x205F || n == 0x3000 || n == 0xFEFF
  }

  /** The characters the alternation `\r\n|\r|\n` removes. */
  predicate IsLineBreak(c: char) {
    c == '\r' || c == '\n'
  }

  ghost predicate NoLineBreaks(s: string) {
    forall i :: 0 <= i < |s| ==> !IsLineBreak(s[i])
  }

  ghost predicate NoSpaces(s: string) {
    forall i :: 0 <= i < |s| ==> !IsSpace(s[i])
  }

  /** Neither the first nor the last character is whitespace. */
  ghost predicate Trimmed(s: string) {
    |s| == 0 || (!IsSpace(s[0]) && !IsSpace(s[|s| - 1]))
  }

  /** No two adjacent characters are both whitespace. */
  ghost predicate NoDoubleSpace(s: string) {
    forall i :: 0 <= i < |s| - 1 ==> !(IsSpace(s[i]) && IsSpace(s[i + 1]))
  }

  function TrimStart(s: string): (r: string)
    ensures |r| == 0 || !IsSpace(r[0])
  {
    if |s| > 0 && IsSpace(s[0]) then TrimStart(s[1..]) else s
  }

  function TrimEnd(s: string): (r: string)
    ensures |r| == 0 || !IsSpace(r[|r| - 1])
    ensures |s| > 0 && !IsSpace(s[0]) ==> |r| > 0 && r[0] == s[0]
  {
    if |s| > 0 && IsSpace(s[|s| - 1]) then TrimEnd(s[..|s| - 1]) else s
  }

  /** `String.prototype.trim`. */
  function Trim(s: string): string {
    TrimEnd(TrimStart(s))
  }

  /** `replace(/(\r\n|\r|\n)/g, '')`: every CR and LF character is removed. */
  function RemoveLineBreaks(s: string): string {
    if |s| == 0 then ""
    else if IsLineBreak(s[0]) then RemoveLineBreaks(s[1..])
    else [s[0]] + RemoveLineBreaks(s[1..])
  }

  /** The length of the run of whitespace that starts `s`. */
  function SpaceRun(s: string): (n: nat)
    ensures n <= |s|
    ensures forall i :: 0 <= i < n ==> IsSpace(s[i])
    ensures n < |s| ==> !IsSpace(s[n])
  {
    if |s| > 0 && IsSpace(s[0]) then 1 + SpaceRun(s[1..]) else 0
  }

  /**
   * `replace(/\s{2,}/g, ' ')`: scanning left to right, each maximal run of
   * two or more whitespace characters becomes one space; a lone whitespace
   * character is kept as it is.
   */
  function CollapseRuns(s: string): string
    decreases |s|
  {
    if |s| == 0 then ""
    else
      var n := SpaceRun(s);
      if n >= 2 then " " + CollapseRuns(s[n..]) else [s[0]] + CollapseRuns(s[1..])
  }

  /** `replace(/\s/g, '')`. */
  function RemoveSpaces(s: string): string {
    if |s| == 0 then ""
    else if IsSpace(s[0]) then RemoveSpaces(s[1..])
    else [s[0]] + RemoveSpaces(s[1..])
  }

  /**
   * `stripWhitespace(html, removeAllSpaces)`; `None` stands for a null or
   * undefined `html`, which reads as the empty string.
   */
  function StripWhitespace(html: Option<string>, removeAllSpaces: bool): string {
    var s := match html case Some(h) => h case None => "";
    var result := CollapseRuns(RemoveLineBreaks(Trim(s)));
    if removeAllSpaces then RemoveSpaces(result) else result
  }

  // Facts about the individual steps.

  lemma {:induction false} RemoveSpacesAppend(a: string, b: string)
    ensures RemoveSpaces(a + b) == RemoveSpaces(a) + RemoveSpaces(b)
    decreases |a|
  {
    if |a| > 0 {
      assert (a + b)[1..] == a[1..] + b;
      RemoveSpacesAppend(a[1..], b);
    } else {
      assert a + b == b;
    }
  }

  lemma {:induction false} RemoveSpacesOfSpaces(s: string)
    requires forall i :: 0 <= i < |s| ==> IsSpace(s[i])
    ensures RemoveSpaces(s) == ""
    decreases |s|
  {
    if |s| > 0 {
      RemoveSpacesOfSpaces(s[1..]);
    }
  }

  lemma {:induction false} RemoveSpacesNoSpaces(s: string)
    ensures NoSpaces(RemoveSpaces(s))
    ensures NoSpaces(s) ==> RemoveSpaces(s) == s
    decreases |s|
  {
    if |s| > 0 {
      RemoveSpacesNoSpaces(s[1..]);
    }
  }

  lemma {:induction false} TrimStartKeepsContent(s: string)
    ensures RemoveSpaces(TrimStart(s)) == RemoveSpaces(s)
    decreases |s|
  {
    if |s| > 0 && IsSpace(s[0]) {
      TrimStartKeepsContent(s[1..]);
    }
  }

  lemma {:induction false} TrimEndKeepsContent(s: string)
    ensures RemoveSpaces(TrimEnd(s)) == RemoveSpaces(s)
    decreases |s|
  {
    if |s| > 0 && IsSpace(s[|s| - 1]) {
      var p := s[..|s| - 1];
      TrimEndKeepsContent(p);
      assert s == p + [s[|s| - 1]];
      RemoveSpacesAppend(p, [s[|s| - 1]]);
    }
  }

  lemma {:induction false} TrimSpec(s: string)
    ensures Trimmed(Trim(s))
    ensures RemoveSpaces(Trim(s)) == RemoveSpaces(s)
    ensures Trimmed(s) ==> Trim(s) == s
  {
    TrimStartKeepsContent(s);
    TrimEndKeepsContent(TrimStart(s));
  }

  lemma {:induction false} TrimStartSlice(s: string) returns (a: nat)
    ensures a <= |s| && TrimStart(s) == s[a..]
    ensures forall i :: 0 <= i < a ==> IsSpace(s[i])
    decreases |s|
  {
    if |s| > 0 && IsSpace(s[0]) {
      var a' := TrimStartSlice(s[1..]);
      a := a' + 1;
      assert s[1..][a'..] == s[a..];
    } else {
      a := 0;
    }
  }

  lemma {:induction false} TrimEndSlice(s: string) returns (b: nat)
    ensures b <= |s| && TrimEnd(s) == s[..b]
    ensures forall i :: b <= i < |s| ==> IsSpace(s[i])
    decreases |s|
  {
    if |s| > 0 && IsSpace(s[|s| - 1]) {
      b := TrimEndSlice(s[..|s| - 1]);
      assert s[..|s| - 1][..b] == s[..b];
    } else {
      b := |s|;
      assert s[..b] == s;
    }
  }

  /**
   * `trim` removes exactly a whitespace prefix and a whitespace suffix: the
   * result is one contiguous slice of the input, inner whitespace included.
   */
  lemma {:induction false} TrimSlice(s: string) returns (a: nat, b: nat)
    ensures a <= b <= |s| && Trim(s) == s[a..b]
    ensures forall i :: 0 <= i < a ==> IsSpace(s[i])
    ensures forall i :: b <= i < |s| ==> IsSpace(s[i])
  {
    a := TrimStartSlice(s);
    var b' := TrimEndSlice(s[a..]);
    b := a + b';
    assert s[a..][..b'] == s[a..b];
    forall i | b <= i < |s|
      ensures IsSpace(s[i])
    {
      assert s[i] == s[a..][i - a];
    }
  }

  /** Text after a non-whitespace character passes through `TrimStart` untouched. */
  lemma {:induction false} TrimStartAppend(x: string, t: string)
    requires |x| > 0 && !IsSpace(x[|x| - 1])
    ensures TrimStart(x + t) == TrimStart(x) + t
    decreases |x|
  {
    if IsSpace(x[0]) {
      assert (x + t)[1..] == x[1..] + t;
      TrimStartAppend(x[1..], t);
    }
  }

  /** Text before a non-whitespace character passes through `TrimEnd` untouched. */
  lemma {:induction false} TrimEndPrepend(t: string, y: string)
    requires |y| > 0 && !IsSpace(y[0])
    ensures TrimEnd(t + y) == t + TrimEnd(y)
    decreases |y|
  {
    if IsSpace(y[|y| - 1]) {
      var y' := y[..|y| - 1];
      assert (t + y)[..|t + y| - 1] == t + y';
      TrimEndPrepend(t, y');
    }
  }

  /** Removing line breaks leaves none and keeps every non-whitespace character, in order. */
  lemma {:induction false} RemoveLineBreaksContent(s: string)
    ensures NoLineBreaks(RemoveLineBreaks(s))
    ensures RemoveSpaces(RemoveLineBreaks(s)) == RemoveSpaces(s)
    decreases |s|
  {
    if |s| > 0 {
      RemoveLineBreaksContent(s[1..]);
      if !IsLineBreak(s[0]) {
        var t := RemoveLineBreaks(s[1..]);
        assert RemoveLineBreaks(s) == [s[0]] + t;
        RemoveSpacesAppend([s[0]], t);
      }
    }
  }

  /** A non-whitespace character at either end stays there; a string without line breaks is unchanged. */
  lemma {:induction false} RemoveLineBreaksEnds(s: string)
    ensures |s| > 0 && !IsSpace(s[0]) ==> |RemoveLineBreaks(s)| > 0 && RemoveLineBreaks(s)[0] == s[0]
    ensures |s| > 0 && !IsSpace(s[|s| - 1]) ==>
              |RemoveLineBreaks(s)| > 0 && RemoveLineBreaks(s)[|RemoveLineBreaks(s)| - 1] == s[|s| - 1]
    ensures NoLineBreaks(s) ==> RemoveLineBreaks(s) == s
    decreases |s|
  {
    if |s| > 0 {
      RemoveLineBreaksEnds(s[1..]);
    }
  }

  /** Removing line breaks works character by character: it distributes over concatenation. */
  lemma {:induction false} RemoveLineBreaksAppend(x: string, y: string)
    ensures RemoveLineBreaks(x + y) == RemoveLineBreaks(x) + RemoveLineBreaks(y)
    decreases |x|
  {
    if |x| > 0 {
      assert (x + y)[1..] == x[1..] + y;
      RemoveLineBreaksAppend(x[1..], y);
    } else {
      assert x + y == y;
    }
  }

  /** A single character is dropped exactly when it is CR or LF; spaces and tabs are kept. */
  lemma RemoveLineBreaksChar(c: char)
    ensures RemoveLineBreaks([c]) == (if IsLineBreak(c) then "" else [c])
  {
  }

  /** Removing line breaks from whitespace leaves whitespace. */
  lemma {:induction false} RemoveLineBreaksOfSpaces(w: string)
    requires forall i :: 0 <= i < |w| ==> IsSpace(w[i])
    ensures forall i :: 0 <= i < |RemoveLineBreaks(w)| ==> IsSpace(RemoveLineBreaks(w)[i])
    decreases |w|
  {
    if |w| > 0 {
      RemoveLineBreaksOfSpaces(w[1..]);
    }
  }

  /** One character in front of a string without double whitespace keeps it so, unless both are whitespace. */
  lemma {:induction false} NoDoubleSpaceCons(head: string, t: string)
    requires |head| == 1 && NoDoubleSpace(t)
    requires |t| > 0 ==> !(IsSpace(head[0]) && IsSpace(t[0]))
    ensures NoDoubleSpace(head + t)
  {
    var r := head + t;
    forall i | 0 <= i < |r| - 1
      ensures !(IsSpace(r[i]) && IsSpace(r[i + 1]))
    {
      if i > 0 {
        assert r[i] == t[i - 1] && r[i + 1] == t[i];
      }
    }
  }

  /** The first step of CollapseRuns: what it emits and where it carries on. */
  lemma {:induction false} CollapseRunsStep(s: string) returns (head: string, rest: string)
    requires |s| > 0
    ensures CollapseRuns(s) == head + CollapseRuns(rest)
    ensures |head| == 1 && |rest| < |s|
    ensures IsSpace(head[0]) && |rest| > 0 ==> !IsSpace(rest[0])
    ensures !IsSpace(s[0]) ==> head == [s[0]] && rest == s[1..]
    ensures s == s[..|s| - |rest|] + rest
    ensures head != " " ==> head == [s[0]] && rest == s[1..]
    ensures head == " " ==> forall i :: 0 <= i < |s| - |rest| ==> IsSpace(s[i])
  {
    var n := SpaceRun(s);
    if n >= 2 {
      head, rest := " ", s[n..];
    } else {
      head, rest := [s[0]], s[1..];
    }
    assert s == s[..|s| - |rest|] + rest;
  }

  /** The collapsed string has no two adjacent whitespace characters and keeps its end characters. */
  lemma {:induction false} CollapseRunsShape(s: string)
    ensures NoDoubleSpace(CollapseRuns(s))
    ensures |s| > 0 && !IsSpace(s[0]) ==> |CollapseRuns(s)| > 0 && CollapseRuns(s)[0] == s[0]
    ensures |s| > 0 && !IsSpace(s[|s| - 1]) ==>
              |CollapseRuns(s)| > 0 && CollapseRuns(s)[|CollapseRuns(s)| - 1] == s[|s| - 1]
    decreases |s|
  {
    if |s| > 0 {
      var head, rest := CollapseRunsStep(s);
      CollapseRunsShape(rest);
      var t := CollapseRuns(rest);
      NoDoubleSpaceCons(head, t);
      if !IsSpace(s[|s| - 1]) && |rest| == 0 {
        assert s[..|s|] == s;
        assert !IsSpace(head[0]);
      }
      if |rest| > 0 {
        assert rest[|rest| - 1] == s[|s| - 1];
      }
    }
  }

  /** Collapsing keeps the non-whitespace characters, in order. */
  lemma {:induction false} CollapseRunsContent(s: string)
    ensures RemoveSpaces(CollapseRuns(s)) == RemoveSpaces(s)
    decreases |s|
  {
    if |s| > 0 {
      var head, rest := CollapseRunsStep(s);
      CollapseRunsContent(rest);
      RemoveSpacesAppend(head, CollapseRuns(rest));
      var dropped := s[..|s| - |rest|];
      RemoveSpacesAppend(dropped, rest);
      if head == " " {
        assert IsSpace(' ');
        RemoveSpacesOfSpaces(dropped);
      } else {
        assert dropped == head;
      }
    }
  }

  lemma {:induction false} CollapseRunsNoLineBreaks(s: string)
    requires NoLineBreaks(s)
    ensures NoLineBreaks(CollapseRuns(s))
    decreases |s|
  {
    if |s| > 0 {
      var head, rest := CollapseRunsStep(s);
      assert NoLineBreaks(rest);
      CollapseRunsNoLineBreaks(rest);
    }
  }

  lemma {:induction false} CollapseRunsFixpoint(s: string)
    requires NoDoubleSpace(s)
    ensures CollapseRuns(s) == s
    decreases |s|
  {
    if |s| > 0 {
      assert SpaceRun(s) <= 1;
      assert NoDoubleSpace(s[1..]);
      CollapseRunsFixpoint(s[1..]);
    }
  }

  /** A whitespace run that ends before a non-whitespace character is not extended by what follows. */
  lemma {:induction false} SpaceRunAppend(a: string, t: string)
    requires SpaceRun(a) < |a|
    ensures SpaceRun(a + t) == SpaceRun(a)
    decreases |a|
  {
    if IsSpace(a[0]) {
      assert (a + t)[1..] == a[1..] + t;
      SpaceRunAppend(a[1..], t);
    }
  }

  lemma {:induction false} SpaceRunOfSpaces(w: string, b: string)
    requires forall i :: 0 <= i < |w| ==> IsSpace(w[i])
    requires |b| == 0 || !IsSpace(b[0])
    ensures SpaceRun(w + b) == |w|
    decreases |w|
  {
    if |w| > 0 {
      assert (w + b)[1..] == w[1..] + b;
      SpaceRunOfSpaces(w[1..], b);
    } else {
      assert w + b == b;
    }
  }

  /** Collapsing works independently on either side of a non-whitespace character. */
  lemma {:induction false} CollapseRunsAppend(a: string, t: string)
    requires |a| == 0 || !IsSpace(a[|a| - 1])
    ensures CollapseRuns(a + t) == CollapseRuns(a) + CollapseRuns(t)
    decreases |a|
  {
    if |a| == 0 {
      assert a + t == t;
    } else {
      var n := SpaceRun(a);
      assert !IsSpace(a[|a| - 1]);
      assert n < |a|;
      SpaceRunAppend(a, t);
      var k := if n >= 2 then n else 1;
      assert (a + t)[k..] == a[k..] + t;
      CollapseRunsAppend(a[k..], t);
    }
  }

  /** A whitespace run at the start becomes one space when it is two or more characters long. */
  lemma {:induction false} CollapseRunsLeadingRun(w: string, b: string)
    requires forall i :: 0 <= i < |w| ==> IsSpace(w[i])
    requires |b| == 0 || !IsSpace(b[0])
    ensures CollapseRuns(w + b) == (if |w| >= 2 then " " else w) + CollapseRuns(b)
  {
    if |w| == 0 {
      assert w + b == b;
    } else {
      SpaceRunOfSpaces(w, b);
      var k := if |w| >= 2 then |w| else 1;
      assert (w + b)[k..] == b;
    }
  }

  /**
   * Collapsing works run by run: a maximal whitespace run `w` between
   * non-whitespace text becomes one space when it has two or more
   * characters and is kept as it is otherwise, and the text on either side
   * is collapsed on its own.
   */
  lemma {:induction false} CollapseRunsSplit(a: string, w: string, b: string)
    requires |a| == 0 || !IsSpace(a[|a| - 1])
    requires forall i :: 0 <= i < |w| ==> IsSpace(w[i])
    requires |b| == 0 || !IsSpace(b[0])
    ensures CollapseRuns(a + w + b) == CollapseRuns(a) + (if |w| >= 2 then " " else w) + CollapseRuns(b)
  {
    var t := w + b;
    assert a + w + b == a + t;
    CollapseRunsAppend(a, t);
    CollapseRunsLeadingRun(w, b);
    var mid := if |w| >= 2 then " " else w;
    assert CollapseRuns(a) + (mid + CollapseRuns(b)) == CollapseRuns(a) + mid + CollapseRuns(b);
  }

  // The promises of stripWhitespace.

  /** The result has no CR or LF, no leading or trailing whitespace and no run of two whitespace characters. */
  lemma {:induction false} StripWhitespaceNormalises(html: Option<string>, removeAllSpaces: bool)
    ensures NoLineBreaks(StripWhitespace(html, removeAllSpaces))
    ensures Trimmed(StripWhitespace(html, removeAllSpaces))
    ensures NoDoubleSpace(StripWhitespace(html, removeAllSpaces))
    ensures removeAllSpaces ==> NoSpaces(StripWhitespace(html, removeAllSpaces))
    ensures html == None ==> StripWhitespace(html, removeAllSpaces) == ""
  {
    var s := match html case Some(h) => h case None => "";
    var t := Trim(s);
    var u := RemoveLineBreaks(t);
    var v := CollapseRuns(u);
    TrimSpec(s);
    RemoveLineBreaksContent(t);
    RemoveLineBreaksEnds(t);
    CollapseRunsShape(u);
    CollapseRunsNoLineBreaks(u);
    if removeAllSpaces {
      RemoveSpacesNoSpaces(v);
      var w := RemoveSpaces(v);
      assert StripWhitespace(html, removeAllSpaces) == w;
      assert forall i :: 0 <= i < |w| ==> !IsSpace(w[i]);
    }
  }

  /** Only whitespace changes: the non-whitespace characters are kept, in order. */
  lemma {:induction false} StripWhitespaceKeepsContent(html: string, removeAllSpaces: bool)
    ensures RemoveSpaces(StripWhitespace(Some(html), removeAllSpaces)) == RemoveSpaces(html)
  {
    var t := Trim(html);
    var u := RemoveLineBreaks(t);
    var v := CollapseRuns(u);
    TrimSpec(html);
    RemoveLineBreaksContent(t);
    RemoveLineBreaksEnds(t);
    CollapseRunsContent(u);
    RemoveSpacesNoSpaces(v);
    RemoveSpacesNoSpaces(RemoveSpaces(v));
  }

  /** A string that is already normalised is returned unchanged. */
  lemma {:induction false} StripWhitespaceFixpoint(s: string, removeAllSpaces: bool)
    requires NoLineBreaks(s) && Trimmed(s) && NoDoubleSpace(s)
    requires removeAllSpaces ==> NoSpaces(s)
    ensures StripWhitespace(Some(s), removeAllSpaces) == s
  {
    TrimSpec(s);
    RemoveLineBreaksEnds(s);
    CollapseRunsFixpoint(s);
    RemoveSpacesNoSpaces(s);
  }

  /** `stripWhitespace` is idempotent for either flag value. */
  lemma {:induction false} StripWhitespaceIdempotent(html: Option<string>, removeAllSpaces: bool)
    ensures StripWhitespace(Some(StripWhitespace(html, removeAllSpaces)), removeAllSpaces)
            == StripWhitespace(html, removeAllSpaces)
  {
    StripWhitespaceNormalises(html, removeAllSpaces);
    StripWhitespaceFixpoint(StripWhitespace(html, removeAllSpaces), removeAllSpaces);
  }

  /**
   * Between two pieces of text that begin and end with non-whitespace, the
   * whitespace `w` becomes one space when two or more of its characters are
   * not line breaks, stays as it is when one is, and disappears when it is
   * only line breaks; each piece is stripped on its own.
   */
  lemma {:induction false} StripWhitespaceSeparates(x: string, w: string, y: string)
    requires |x| > 0 && !IsSpace(x[|x| - 1])
    requires forall i :: 0 <= i < |w| ==> IsSpace(w[i])
    requires |y| > 0 && !IsSpace(y[0])
    ensures StripWhitespace(Some(x + w + y), false)
            == StripWhitespace(Some(x), false)
               + (if |RemoveLineBreaks(w)| >= 2 then " " else RemoveLineBreaks(w))
               + StripWhitespace(Some(y), false)
  {
    var p := TrimStart(x);
    var q := TrimEnd(y);
    // Trim of the whole input, and of each piece.
    TrimStartAppend(x, w + y);
    assert x + w + y == x + (w + y);
    assert p + (w + y) == (p + w) + y;
    TrimEndPrepend(p + w, y);
    assert Trim(x + w + y) == p + w + q;
    var a := TrimStartSlice(x);
    assert p[|p| - 1] == x[|x| - 1];
    assert Trim(x) == p;
    assert TrimStart(y) == y;
    // Line breaks, piece by piece.
    RemoveLineBreaksAppend(p + w, q);
    RemoveLineBreaksAppend(p, w);
    RemoveLineBreaksEnds(p);
    RemoveLineBreaksEnds(q);
    RemoveLineBreaksOfSpaces(w);
    CollapseRunsSplit(RemoveLineBreaks(p), RemoveLineBreaks(w), RemoveLineBreaks(q));
  }

  /** A double space between words becomes one space. */
  lemma StripWhitespaceRunExample()
    ensures StripWhitespace(Some("a  b"), false) == "a b"
  {
    assert "a" + "  " + "b" == "a  b";
    StripWhitespaceSeparates("a", "  ", "b");
    StripWhitespaceFixpoint("a", false);
    StripWhitespaceFixpoint("b", false);
    RemoveLineBreaksEnds("  ");
    assert "a" + " " + "b" == "a b";
  }

  /** A line break inside a run of spaces is removed, and the run then becomes one space. */
  lemma StripWhitespaceLineBreakExample()
    ensures StripWhitespace(Some("a \n b"), false) == "a b"
  {
    assert "a" + " \n " + "b" == "a \n b";
    StripWhitespaceSeparates("a", " \n ", "b");
    StripWhitespaceFixpoint("a", false);
    StripWhitespaceFixpoint("b", false);
    assert RemoveLineBreaks(" \n ") == "  ";
    assert "a" + " " + "b" == "a b";
  }

  /** Line breaks are removed before runs are collapsed, so a bare line break joins two words. */
  lemma StripWhitespaceJoinExample()
    ensures StripWhitespace(Some("a\nb"), false) == "ab"
  {
    StripWhitespaceSeparates("a", "\n", "b");
    StripWhitespaceFixpoint("a", false);
    StripWhitespaceFixpoint("b", false);
  }
}
