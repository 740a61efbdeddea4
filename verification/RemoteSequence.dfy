/** Sync Gateway's compound sequence IDs and the order that decides which checkpoint is older
    (Replicator/ParsedSequenceID.hh). */
module ParsedSequenceIDs {
  import opened Common

  datatype ParsedSequenceID = ParsedSequenceID(number: uint64, triggeredBy: uint64, lowSeq: uint64) {

    predicate IsSimple() { lowSeq == 0 && triggeredBy == 0 }

    predicate IsTriggered() { lowSeq == 0 && triggeredBy > 0 }

    predicate IsLowSeq() { lowSeq > 0 }

    predicate Before(b: ParsedSequenceID)
      decreases lowSeq
    {
      if IsLowSeq() then
        if b.IsLowSeq() then
          if lowSeq != b.lowSeq then lowSeq < b.lowSeq
          else ParsedSequenceID(number, triggeredBy, 0).Before(ParsedSequenceID(b.number, b.triggeredBy, 0))
        else if b.IsTriggered() then lowSeq < b.triggeredBy
        else lowSeq < b.number
      else if IsTriggered() then
        if b.IsLowSeq() then triggeredBy <= b.lowSeq
        else if b.IsTriggered() then
          if triggeredBy != b.triggeredBy then triggeredBy < b.triggeredBy else number < b.number
        else triggeredBy <= b.number
      else
        if b.IsLowSeq() then number <= b.lowSeq
        else if b.IsTriggered() then number < b.triggeredBy
        else number < b.number
    }

    /** The reference reading of an ID: its comparison value, the rank of its format
        (backfill 0, simple 1, lowSeq 2), and then whatever the format still has to compare. */
    function Key(): (k: seq<int>)
      decreases lowSeq
    {
      if IsLowSeq() then [lowSeq, 2] + ParsedSequenceID(number, triggeredBy, 0).Key()
      else if IsTriggered() then [triggeredBy, 0, number]
      else [number, 1]
    }
  }

  /** Lexicographic order; a proper prefix comes first. */
  predicate LexLess(a: seq<int>, b: seq<int>)
  {
    if a == [] then b != []
    else if b == [] then false
    else a[0] < b[0] || (a[0] == b[0] && LexLess(a[1..], b[1..]))
  }

  lemma {:induction false} LexTransitive(a: seq<int>, b: seq<int>, c: seq<int>)
    requires LexLess(a, b) && LexLess(b, c)
    ensures LexLess(a, c)
  {
    if a != [] && a[0] == b[0] && b[0] == c[0] { LexTransitive(a[1..], b[1..], c[1..]); }
  }

  lemma {:induction false} LexTrichotomous(a: seq<int>, b: seq<int>)
    ensures !LexLess(a, a)
    ensures !(LexLess(a, b) && LexLess(b, a))
    ensures a == b || LexLess(a, b) || LexLess(b, a)
  {
    if a != [] {
      if b != [] {
        LexTrichotomous(a[1..], b[1..]);
        assert a == [a[0]] + a[1..] && b == [b[0]] + b[1..];
      } else {
        LexTrichotomous(a[1..], []);
      }
    }
  }

  /** The branching comparison, with its mix of `<` and `<=`, is lexicographic order on keys. */
  lemma {:induction false} BeforeIsLexicographic(a: ParsedSequenceID, b: ParsedSequenceID)
    ensures a.Before(b) <==> LexLess(a.Key(), b.Key())
    decreases a.lowSeq
  {
    var ka, kb := a.Key(), b.Key();
    LexUnfold2(ka, kb);
    if a.IsLowSeq() && b.IsLowSeq() {
      var a0, b0 := ParsedSequenceID(a.number, a.triggeredBy, 0), ParsedSequenceID(b.number, b.triggeredBy, 0);
      BeforeIsLexicographic(a0, b0);
      assert ka[2..] == a0.Key() && kb[2..] == b0.Key();
    } else if a.IsTriggered() && b.IsTriggered() {
      assert ka[2..] == [a.number] && kb[2..] == [b.number];
    } else {
      assert ka[..2] == kb[..2] ==> ka[2..] == [] && kb[2..] == [];
    }
  }

  /** Two steps of `LexLess`, for keys of at least two components. */
  lemma LexUnfold2(a: seq<int>, b: seq<int>)
    requires |a| >= 2 && |b| >= 2
    ensures LexLess(a, b) <==>
            a[0] < b[0] || (a[0] == b[0] && (a[1] < b[1] || (a[1] == b[1] && LexLess(a[2..], b[2..]))))
  {
    assert a[1..][1..] == a[2..] && b[1..][1..] == b[2..];
  }

  lemma {:induction false} KeyInjective(a: ParsedSequenceID, b: ParsedSequenceID)
    requires a.Key() == b.Key()
    ensures a == b
    decreases a.lowSeq
  {
    var ka, kb := a.Key(), b.Key();
    assert ka[0] == kb[0] && ka[1] == kb[1];
    if a.IsLowSeq() {
      var a0, b0 := ParsedSequenceID(a.number, a.triggeredBy, 0), ParsedSequenceID(b.number, b.triggeredBy, 0);
      assert ka[2..] == a0.Key() && kb[2..] == b0.Key();
      KeyInjective(a0, b0);
    } else if a.IsTriggered() {
      assert ka[2] == kb[2];
    }
  }

  /** `before` is a strict total order on all triples. */
  lemma BeforeIsStrictTotalOrder(a: ParsedSequenceID, b: ParsedSequenceID, c: ParsedSequenceID)
    ensures !a.Before(a)
    ensures a.Before(b) && b.Before(c) ==> a.Before(c)
    ensures !(a.Before(b) && b.Before(a))
    ensures a == b || a.Before(b) || b.Before(a)
  {
    BeforeIsLexicographic(a, a);
    BeforeIsLexicographic(a, b);
    BeforeIsLexicographic(b, a);
    BeforeIsLexicographic(b, c);
    BeforeIsLexicographic(a, c);
    LexTrichotomous(a.Key(), b.Key());
    if a.Key() == b.Key() { KeyInjective(a, b); }
    if LexLess(a.Key(), b.Key()) && LexLess(b.Key(), c.Key()) { LexTransitive(a.Key(), b.Key(), c.Key()); }
  }

  /** The pieces of `str` between colons; a trailing empty piece is dropped (StringUtil.cc). */
  function Split(str: string): (parts: seq<string>)
    decreases |str|
  {
    if str == "" then []
    else
      var k := ColonAt(str);
      [str[..k]] + if k == |str| then [] else Split(str[k + 1..])
  }

  function ColonAt(str: string): (k: nat)
    ensures k <= |str| && ':' !in str[..k]
    ensures k < |str| ==> str[k] == ':'
  {
    if str == "" || str[0] == ':' then 0
    else
      var k := ColonAt(str[1..]);
      assert str[..k + 1] == [str[0]] + str[1..][..k];
      k + 1
  }

  /** One numeric component. */
  function ReadUInt(part: string): (r: Option<uint64>)
    ensures r.Some? <==> part != "" && AllDigits(part)
    ensures r.Some? && DecimalValue(part) < TWO_64 ==> r.value == DecimalValue(part)
  {
    if part == "" || ReadDecimal(part).1 != "" then None else Some(ReadDecimal(part).0)
  }

  function Parse(str: string): (r: Option<ParsedSequenceID>)
  {
    if str == "" || str[|str| - 1] == ':' then None else ParseParts(Split(str))
  }

  function ParseParts(parts: seq<string>): (r: Option<ParsedSequenceID>)
  {
    if |parts| == 1 then
      var v0 := ReadUInt(parts[0]);
      if v0.None? then None else Some(ParsedSequenceID(v0.value, 0, 0))
    else if |parts| == 2 then
      var v0, v1 := ReadUInt(parts[0]), ReadUInt(parts[1]);
      if v0.None? || v1.None? then None else Some(ParsedSequenceID(v1.value, v0.value, 0))
    else if |parts| == 3 then
      var v0, v2 := ReadUInt(parts[0]), ReadUInt(parts[2]);
      var v1 := if parts[1] == "" then Some(0) else ReadUInt(parts[1]);
      if v0.None? || v1.None? || v2.None? then None
      else Some(ParsedSequenceID(v2.value, v1.value, v0.value))
    else None
  }

  /** Reference grammar: one to three numerals, of which only the middle of three may be empty. */
  ghost predicate Numerals(parts: seq<string>)
  {
    && 1 <= |parts| <= 3
    && forall i :: 0 <= i < |parts| ==> AllDigits(parts[i]) && (parts[i] != "" || (|parts| == 3 && i == 1))
  }

  function Join(parts: seq<string>): (s: string)
  {
    if parts == [] then "" else if |parts| == 1 then parts[0] else parts[0] + ":" + Join(parts[1..])
  }

  /** Splitting undoes joining when no piece has a colon and the last one is not empty. */
  lemma {:induction false} SplitJoin(parts: seq<string>)
    requires parts != [] && parts[|parts| - 1] != ""
    requires forall i :: 0 <= i < |parts| ==> ':' !in parts[i]
    ensures Split(Join(parts)) == parts && LastChar(Join(parts)) == LastChar(parts[|parts| - 1])
  {
    if |parts| == 1 {
      SplitNoColon(parts[0]);
    } else {
      var head, rest := parts[0], parts[1..];
      SplitJoin(rest);
      SplitHead(head, Join(rest));
      assert parts == [head] + rest;
    }
  }

  /** The last character, if there is one. */
  function LastChar(s: string): Option<char>
  {
    if s == "" then None else Some(s[|s| - 1])
  }

  lemma SplitNoColon(s: string)
    requires s != "" && ':' !in s
    ensures Split(s) == [s]
  {
    assert ColonAt(s) == |s|;
    assert s[..|s|] == s;
  }

  lemma SplitHead(head: string, tail: string)
    requires ':' !in head
    ensures Split(head + ":" + tail) == [head] + Split(tail)
  {
    var s := head + ":" + tail;
    assert s[|head|] == ':';
    assert forall i :: 0 <= i < |head| ==> s[i] == head[i];
    assert ColonAt(s) == |head|;
    assert s[..|head|] == head && s[|head| + 1..] == tail;
  }

  /** Joining undoes splitting when the text does not end with a colon. */
  lemma {:induction false} JoinSplit(str: string)
    requires str != "" && str[|str| - 1] != ':'
    ensures Split(str) != [] && Join(Split(str)) == str
    decreases |str|
  {
    var k := ColonAt(str);
    if k == |str| {
      SplitNoColon(str);
    } else {
      JoinSplit(str[k + 1..]);
      JoinSplitHead(str, str[..k], str[k + 1..]);
    }
  }

  lemma JoinSplitHead(str: string, head: string, tail: string)
    requires str == head + ":" + tail && ':' !in head && Split(tail) != [] && Join(Split(tail)) == tail
    ensures Split(str) != [] && Join(Split(str)) == str
  {
    SplitHead(head, tail);
    JoinCons(head, Split(tail));
  }

  lemma JoinCons(head: string, parts: seq<string>)
    requires parts != []
    ensures Join([head] + parts) == head + ":" + Join(parts)
  {
    assert ([head] + parts)[1..] == parts;
  }

  lemma DigitsHaveNoColon(s: string)
    requires AllDigits(s)
    ensures ':' !in s
  {
  }

  /** Exactly the pieces of the grammar are accepted. */
  lemma NumeralsParse(parts: seq<string>)
    ensures Numerals(parts) <==> ParseParts(parts).Some?
  {
  }

  /** Parsing the joined form of some pieces is parsing the pieces. */
  lemma ParseJoin(parts: seq<string>)
    requires Numerals(parts)
    ensures Parse(Join(parts)) == ParseParts(parts)
  {
    var last := parts[|parts| - 1];
    assert last != "" && IsDigit(last[|last| - 1]);
    forall i | 0 <= i < |parts| ensures ':' !in parts[i] { DigitsHaveNoColon(parts[i]); }
    SplitJoin(parts);
    assert LastChar(Join(parts)) == Some(last[|last| - 1]);
  }

  /** `parse` accepts exactly the strings of the grammar. */
  lemma ParseAcceptsExactly(str: string)
    ensures Parse(str).Some? <==> exists parts :: Numerals(parts) && Join(parts) == str
  {
    if Parse(str).Some? {
      JoinSplit(str);
      NumeralsParse(Split(str));
    } else {
      forall parts | Numerals(parts) ensures Join(parts) != str { ParseJoin(parts); NumeralsParse(parts); }
    }
  }

  /** The pieces Sync Gateway writes for an ID. */
  ghost predicate Writes(parts: seq<string>, id: ParsedSequenceID)
  {
    && Numerals(parts)
    && DecimalValue(parts[|parts| - 1]) == id.number
    && (|parts| == 1 ==> id.IsSimple())
    && (|parts| == 2 ==> id.IsTriggered() && DecimalValue(parts[0]) == id.triggeredBy)
    && (|parts| == 3 ==> DecimalValue(parts[0]) == id.lowSeq && DecimalValue(parts[1]) == id.triggeredBy)
  }

  /** Whatever numerals the ID is written with, it is read back. */
  lemma ParseWritten(parts: seq<string>, id: ParsedSequenceID)
    requires Writes(parts, id)
    ensures Parse(Join(parts)) == Some(id)
  {
    ParseJoin(parts);
    PartsWritten(parts, id);
  }

  lemma PartsWritten(parts: seq<string>, id: ParsedSequenceID)
    requires Writes(parts, id)
    ensures ParseParts(parts) == Some(id)
  {
    assert AllDigits(parts[0]) && AllDigits(parts[|parts| - 1]);
    if |parts| == 3 {
      assert AllDigits(parts[1]);
      assert parts[1] == "" ==> id.triggeredBy == 0;
    }
  }
}

/** A sequence received from a peer: any JSON text, with positive integers kept as numbers
    (Replicator/RemoteSequence.hh). The null sequence is `Raw("")`. */
module RemoteSequences {
  import opened Common
  import opened ParsedSequenceIDs

  datatype RemoteSequence = Int(number: uint64) | Raw(json: string) {

    /** `operator bool` */
    predicate NonNull() { Int? || json != "" }

    function ToJSON(): (s: string) { if Int? then ToDecimal(number) else json }

    function ToParsedSequenceID(): (r: Option<ParsedSequenceID>)
    {
      if !NonNull() then None
      else if Int? then Some(ParsedSequenceID(number, 0, 0))
      else if |json| >= 2 && json[0] == '"' && json[|json| - 1] == '"' then Parse(json[1..|json| - 1])
      else Parse(json)
    }

    predicate Less(other: RemoteSequence)
    {
      if Int? then !other.Int? || number < other.number
      else !other.Int? && LexLess(Bytes(json), Bytes(other.json))
    }
  }

  const NullSequence: RemoteSequence := Raw("")

  function Quoted(text: string): string { "\"" + text + "\"" }

  /** What the parts of a sequence are read from: a number stands for itself, a text for what is in it, and
      quotes around it do not matter. */
  lemma SequenceParsed(n: uint64, text: string)
    ensures Int(n).ToParsedSequenceID() == Some(ParsedSequenceID(n, 0, 0))
    ensures Raw(Quoted(text)).ToParsedSequenceID() == Parse(text)
    ensures !(|text| >= 2 && text[0] == '"' && text[|text| - 1] == '"') ==> Raw(text).ToParsedSequenceID() == Parse(text)
    ensures NullSequence.ToParsedSequenceID() == None
  {
    assert Quoted(text)[1..|Quoted(text)| - 1] == text;
  }

  /** So an ID is read back from what is written for it, with quotes and without. */
  lemma SequenceWritten(parts: seq<string>, id: ParsedSequenceID)
    requires Writes(parts, id)
    ensures Raw(Join(parts)).ToParsedSequenceID() == Raw(Quoted(Join(parts))).ToParsedSequenceID() == Some(id)
  {
    ParseWritten(parts, id);
    SequenceParsed(0, Join(parts));
    StartsWithDigit(parts);
  }

  lemma StartsWithDigit(parts: seq<string>)
    requires Numerals(parts)
    ensures Join(parts) != "" && Join(parts)[0] != '"'
  {
    assert AllDigits(parts[0]) && parts[0] != "";
    assert Join(parts)[0] == parts[0][0];
  }

  /** The constructor from a slice of JSON. */
  function FromJSON(json: string): (r: RemoteSequence)
  {
    if json == "" then NullSequence
    else if ReadDecimal(json).1 == "" then Int(ReadDecimal(json).0)
    else Raw(json)
  }

  /** The constructor from the JSON value that is written `text`. Reading a negative integer as an
      unsigned one wraps around. */
  function FromValue(text: string): (r: RemoteSequence)
  {
    if !IsInteger(text) then Raw(text)
    else if text[0] == '-' then Int((TWO_64 - DecimalValue(text[1..])) % TWO_64)
    else Int(DecimalValue(text))
  }

  /** A JSON number that is an integer of 64 bits. */
  predicate IsInteger(text: string)
  {
    || (text != "" && AllDigits(text) && DecimalValue(text) < TWO_64)
    || (|text| > 1 && text[0] == '-' && AllDigits(text[1..]) && DecimalValue(text[1..]) <= TWO_64 / 2)
  }

  function Bytes(s: string): (bytes: seq<int>)
  {
    seq(|s|, i requires 0 <= i < |s| => s[i] as int)
  }

  /** A sequence read back from its value in a document is itself, except for a text that is itself an
      integer. */
  lemma ValueRoundTrip(r: RemoteSequence)
    ensures FromValue(r.ToJSON()) == r <==> (r.Raw? ==> !IsInteger(r.json))
  {
  }

  /** A negative integer is read as its two's complement. */
  lemma NegativeWraps(n: nat)
    requires 0 < n <= TWO_64 / 2
    ensures FromValue("-" + ToDecimal(n)).Int? && FromValue("-" + ToDecimal(n)).number + n == TWO_64
  {
    assert ("-" + ToDecimal(n))[1..] == ToDecimal(n);
  }

  /** Writing a sequence and reading it back gives the same sequence, except for a text that is
      itself a numeral: that one comes back as a number. */
  lemma JSONRoundTrip(r: RemoteSequence)
    ensures FromJSON(r.ToJSON()) == r <==> (r.Raw? && r.json != "" ==> !AllDigits(r.json))
  {
  }

  lemma BytesInjective(a: string, b: string)
    requires Bytes(a) == Bytes(b)
    ensures a == b
  {
    assert |Bytes(a)| == |a| && |Bytes(b)| == |b|;
    forall i | 0 <= i < |a| ensures a[i] == b[i] { assert Bytes(a)[i] == Bytes(b)[i]; }
  }

  /** Numbers come before texts, in their own order; texts in that of their bytes. */
  lemma LessMeans(m: uint64, n: uint64, a: string, b: string)
    ensures Int(m).Less(Int(n)) <==> m < n
    ensures Int(m).Less(Raw(a)) && !Raw(a).Less(Int(m))
    ensures Raw(a).Less(Raw(b)) <==> LexLess(Bytes(a), Bytes(b))
  {
  }

  /** `operator<` is a strict total order that agrees with `operator==`, as a map key needs. */
  lemma LessIsStrictTotalOrder(a: RemoteSequence, b: RemoteSequence, c: RemoteSequence)
    ensures !a.Less(a)
    ensures a == b || a.Less(b) || b.Less(a)
    ensures !(a.Less(b) && b.Less(a))
    ensures a.Less(b) && b.Less(c) ==> a.Less(c)
  {
    if a.Raw? { LexTrichotomous(Bytes(a.json), Bytes(a.json)); }
    if a.Raw? && b.Raw? {
      var x, y := Bytes(a.json), Bytes(b.json);
      LexTrichotomous(x, y);
      if x == y { BytesInjective(a.json, b.json); }
      if c.Raw? && LexLess(x, y) && LexLess(y, Bytes(c.json)) { LexTransitive(x, y, Bytes(c.json)); }
    }
  }
}
