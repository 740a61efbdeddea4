/** Crypto/Certificate.cc: X.509 distinguished names as text, in the form of section 2.4 of RFC 4514,
    and as lists of entries. */
module DistinguishedNames {
  import opened Common

  datatype Entry = Entry(key: string, value: string)

  const COMMA := ','
  const BACKSLASH := '\\'

  // ---- Writing

  /** A value with its commas escaped. */
  function Escape(v: string): string
  {
    if v == [] then []
    else if v[0] == COMMA then [BACKSLASH, COMMA] + Escape(v[1..])
    else [v[0]] + Escape(v[1..])
  }

  function EntryText(e: Entry): string { e.key + "=" + Escape(e.value) }

  /** What follows an entry: the other entries, each after a comma and a space. */
  function Tail(entries: seq<Entry>): string
  {
    if entries == [] then [] else ", " + EntryText(entries[0]) + Tail(entries[1..])
  }

  function NameOf(entries: seq<Entry>): string
  {
    if entries == [] then [] else EntryText(entries[0]) + Tail(entries[1..])
  }

  /** The index of the first character of `s` that is `c` or `d`, or the length of `s`. */
  function FindAny(s: string, c: char, d: char): (k: nat)
    ensures k <= |s| && (k < |s| ==> s[k] == c || s[k] == d)
    ensures forall i :: 0 <= i < k ==> s[i] != c && s[i] != d
  {
    if s == [] || s[0] == c || s[0] == d then 0
    else
      var k := FindAny(s[1..], c, d);
      assert forall i :: 0 < i < 1 + k ==> s[i] == s[1..][i - 1];
      1 + k
  }

  /** The constructor of a name from its entries. */
  method Build(entries: seq<Entry>) returns (out: string)
    ensures out == NameOf(entries)
  {
    out := [];
    for i := 0 to |entries|
      invariant out == NameOf(entries[..i])
    {
      NameOneMore(entries[..i], entries[i]);
      assert entries[..i] + [entries[i]] == entries[..i + 1];
      hide NameOf, Escape;
      if |out| > 0 { out := out + ", "; }
      ghost var start := out;
      out := out + entries[i].key + "=";
      out := AppendEscaped(out, entries[i].value);
      Regroup4(start, entries[i].key, "=", Escape(entries[i].value));
    }
    assert entries[..|entries|] == entries;
  }

  lemma NameOneMore(es: seq<Entry>, e: Entry)
    ensures NameOf(es + [e]) == (if NameOf(es) == [] then [] else NameOf(es) + ", ") + EntryText(e)
  {
    if es == [] {
      assert [] + [e] == [e] && [e][1..] == [];
      assert EntryText(e) + [] == EntryText(e) == [] + EntryText(e);
    } else {
      TailOneMore(es[1..], e);
      assert (es + [e])[1..] == es[1..] + [e];
      hide Escape, Tail;
      Regroup4(EntryText(es[0]), Tail(es[1..]), ", ", EntryText(e));
    }
  }

  lemma {:induction false} TailOneMore(es: seq<Entry>, e: Entry)
    ensures Tail(es + [e]) == Tail(es) + ", " + EntryText(e)
  {
    hide EntryText;
    if es == [] {
      assert [] + [e] == [e] && [e][1..] == [];
      assert Tail([e]) == ", " + EntryText(e) + [] == [] + ", " + EntryText(e);
    } else {
      TailOneMore(es[1..], e);
      assert (es + [e])[1..] == es[1..] + [e];
      Regroup4(", " + EntryText(es[0]), Tail(es[1..]), ", ", EntryText(e));
    }
  }

  lemma Regroup4(a: string, b: string, c: string, d: string)
    ensures a + (b + c + d) == a + b + c + d
  {
  }

  /** The inner loop: copies the text between commas, and escapes the commas. */
  method AppendEscaped(start: string, v: string) returns (out: string)
    ensures out == start + Escape(v)
  {
    out := start;
    var value := v;
    var comma := FindAny(value, COMMA, COMMA);
    while comma < |value|
      invariant comma == FindAny(value, COMMA, COMMA)
      invariant out + Escape(value) == start + Escape(v)
      decreases |value|
    {
      EscapeSegment(value, comma);
      out := out + value[..comma] + [BACKSLASH, COMMA];
      value := value[comma + 1..];
      comma := FindAny(value, COMMA, COMMA);
    }
    EscapeSegment(value, comma);
    out := out + value;
  }

  lemma {:induction false} EscapeSegment(v: string, k: nat)
    requires k <= |v| && forall i :: 0 <= i < k ==> v[i] != COMMA
    ensures Escape(v) == v[..k] + Escape(v[k..])
    ensures k < |v| && v[k] == COMMA ==> Escape(v) == v[..k] + [BACKSLASH, COMMA] + Escape(v[k + 1..])
    ensures k == |v| ==> Escape(v) == v
  {
    if k == 0 {
      assert v[0..] == v;
    } else {
      EscapeSegment(v[1..], k - 1);
      assert v[1..][k - 1..] == v[k..] && v[..k] == [v[0]] + v[1..][..k - 1];
      assert k < |v| ==> v[1..][k..] == v[k + 1..];
    }
  }

  // ---- Reading

  /** A value and the text after it: up to a comma that is not escaped. A backslash stands for the
      character after it; where there is none, the code reads beyond the end, which is None here. */
  function ParseValue(s: string): (r: Option<(string, string)>)
    ensures r.Some? ==> |r.value.1| <= |s|
  {
    if s == [] then Some(("", ""))
    else if s[0] == COMMA then Some(("", s[1..]))
    else if s[0] == BACKSLASH then
      if |s| < 2 then None else Prepend([s[1]], ParseValue(s[2..]))
    else Prepend([s[0]], ParseValue(s[1..]))
  }

  function Prepend(a: string, r: Option<(string, string)>): Option<(string, string)>
  {
    if r.None? then None else Some((a + r.value.0, r.value.1))
  }

  lemma PrependTwice(a: string, b: string, r: Option<(string, string)>)
    ensures Prepend(a, Prepend(b, r)) == Prepend(a + b, r) && Prepend([], r) == r
  {
    if r.Some? {
      assert a + (b + r.value.0) == a + b + r.value.0;
      assert [] + r.value.0 == r.value.0;
    }
  }

  function SkipSpaces(s: string): (r: string)
    ensures |r| <= |s| && (r != [] ==> r[0] != ' ')
  {
    if s != [] && s[0] == ' ' then SkipSpaces(s[1..]) else s
  }

  function VectorOf(s: string): Option<seq<Entry>>
    decreases |s|
  {
    if s == [] then Some([])
    else
      var k := FindAny(s, '=', '=');
      var r := ParseValue(if k < |s| then s[k + 1..] else []);
      if r.None? then None
      else
        var more := VectorOf(SkipSpaces(r.value.1));
        if more.None? then None else Some([Entry(s[..k], r.value.0)] + more.value)
  }

  function After(entries: seq<Entry>, r: Option<seq<Entry>>): Option<seq<Entry>>
  {
    if r.None? then None else Some(entries + r.value)
  }

  lemma AfterTwice(a: seq<Entry>, b: seq<Entry>, r: Option<seq<Entry>>)
    ensures After(a, After(b, r)) == After(a + b, r) && After([], r) == r
  {
    if r.Some? {
      assert a + (b + r.value) == a + b + r.value;
      assert [] + r.value == r.value;
    }
  }

  /** `asVector` */
  method AsVector(name: string) returns (r: Option<seq<Entry>>)
    ensures r == VectorOf(name)
  {
    hide ParseValue, SkipSpaces, FindAny, After;
    var result: seq<Entry> := [];
    var dn := name;
    AfterTwice([], [], VectorOf(name));
    while |dn| > 0
      invariant VectorOf(name) == After(result, VectorOf(dn))
      decreases |dn|
    {
      var k := FindAny(dn, '=', '=');
      var key := dn[..k];
      var p := ReadValue(if k < |dn| then dn[k + 1..] else []);
      VectorStep(dn);
      if p.None? {
        AfterNone(result);
        return None;
      }
      var (value, rest) := p.value;
      AfterTwice(result, [Entry(key, value)], VectorOf(SkipSpaces(rest)));
      result := result + [Entry(key, value)];
      dn := SkipSpaces(rest);
    }
    AfterEmpty(result);
    return Some(result);
  }

  lemma VectorStep(s: string)
    requires s != []
    ensures var k := FindAny(s, '=', '=');
            var r := ParseValue(if k < |s| then s[k + 1..] else []);
            VectorOf(s) == if r.None? then None
                           else After([Entry(s[..k], r.value.0)], VectorOf(SkipSpaces(r.value.1)))
  {
    hide ParseValue, FindAny;
  }

  lemma AfterNone(a: seq<Entry>)
    ensures After(a, None) == None
  {
  }

  lemma AfterEmpty(a: seq<Entry>)
    ensures After(a, Some([])) == Some(a)
  {
    assert a + [] == a;
  }

  /** The inner loop: copies the text up to a comma or a backslash, and the character after the
      latter. */
  method ReadValue(s: string) returns (r: Option<(string, string)>)
    ensures r == ParseValue(s)
  {
    hide FindAny, Prepend;
    var value, dn := "", s;
    PrependTwice([], [], ParseValue(s));
    while true
      invariant ParseValue(s) == Prepend(value, ParseValue(dn))
      decreases |dn|
    {
      var next := FindAny(dn, COMMA, BACKSLASH);
      ParseSegment(dn, next);
      PrependTwice(value, dn[..next], ParseValue(dn[next..]));
      value := value + dn[..next];
      dn := dn[next..];
      ParseNext(value, dn);
      if dn == [] { return Some((value, "")); }
      var delim := dn[0];
      dn := dn[1..];
      if delim == COMMA { return Some((value, dn)); }
      if dn == [] { return None; }
      value := value + [dn[0]];
      dn := dn[1..];
    }
  }

  /** What follows a segment. */
  lemma ParseNext(value: string, s: string)
    requires s != [] ==> s[0] == COMMA || s[0] == BACKSLASH
    ensures Prepend(value, ParseValue(s))
         == if s == [] then Some((value, ""))
            else if s[0] == COMMA then Some((value, s[1..]))
            else if s[1..] == [] then None
            else Prepend(value + [s[1]], ParseValue(s[1..][1..]))
  {
    assert value + [] == value;
    if |s| > 1 {
      PrependTwice(value, [s[1]], ParseValue(s[2..]));
      assert s[1..][1..] == s[2..];
    }
  }

  lemma {:induction false} ParseSegment(s: string, k: nat)
    requires k <= |s| && forall i :: 0 <= i < k ==> s[i] != COMMA && s[i] != BACKSLASH
    ensures ParseValue(s) == Prepend(s[..k], ParseValue(s[k..]))
  {
    if k == 0 {
      assert s[0..] == s && s[..0] == [];
      PrependTwice([], [], ParseValue(s));
    } else {
      ParseSegment(s[1..], k - 1);
      PrependTwice([s[0]], s[1..][..k - 1], ParseValue(s[k..]));
      assert s[1..][k - 1..] == s[k..] && s[..k] == [s[0]] + s[1..][..k - 1];
    }
  }

  // ---- Round trip

  predicate Has(s: string, c: char) { exists i :: 0 <= i < |s| && s[i] == c }

  /** What the text form can carry: no equals sign in a key, no space at the start of a key that
      follows another entry, no backslash in a value. */
  predicate Plain(entries: seq<Entry>, first: bool)
  {
    entries != [] ==>
      && !Has(entries[0].key, '=') && (first || !StartsWithSpace(entries[0].key))
      && !Has(entries[0].value, BACKSLASH)
      && Plain(entries[1..], false)
  }

  predicate StartsWithSpace(s: string) { s != [] && s[0] == ' ' }

  /** What may follow a value: nothing, or a comma. */
  predicate Separated(t: string) { t != [] ==> t[0] == COMMA }

  /** A value without backslashes is read back. */
  lemma {:induction false} ValueRoundTrip(v: string, t: string)
    requires !Has(v, BACKSLASH) && Separated(t)
    ensures ParseValue(Escape(v) + t) == Some((v, if t == [] then [] else t[1..]))
  {
    if v == [] {
      assert [] + t == t;
    } else {
      NoneInTail(v);
      ValueRoundTrip(v[1..], t);
      assert v[0] != BACKSLASH;
      PlainCharacter(v, t);
      hide Escape, ParseValue;
      assert v == [v[0]] + v[1..];
    }
  }

  lemma NoneInTail(v: string)
    requires v != [] && !Has(v, BACKSLASH)
    ensures !Has(v[1..], BACKSLASH)
  {
    assert forall i :: 0 <= i < |v[1..]| ==> v[1..][i] == v[i + 1];
  }

  predicate AllBackslashes(d: string) { forall i :: 0 <= i < |d| ==> d[i] == BACKSLASH }

  /** A value with a backslash is never read back, not even where the text after it makes up for
      what is lost: `d` is how far reading lags behind. */
  lemma {:induction false} ValueWithBackslash(d: string, v: string, t: string)
    requires AllBackslashes(d) && (d != [] || Has(v, BACKSLASH)) && Separated(t)
    ensures var r := ParseValue(Escape(v) + t); r.None? || r.value.0 != d + v
    decreases |v|
  {
    if v == [] {
      assert [] + t == t && d + [] == d;
    } else if v[0] != BACKSLASH {
      PlainCharacter(v, t);
      if d == [] {
        HasTail(v);
        ValueWithBackslash([], v[1..], t);
        assert [] + v == [v[0]] + ([] + v[1..]);
      } else {
        assert (d + v)[0] == BACKSLASH;
      }
    } else {
      assert (d + v)[0] == BACKSLASH;
      Backslash(v, t);
      if |v| > 1 && v[1] == BACKSLASH {
        var d' := (d + v[..2])[1..];
        ValueWithBackslash(d', v[2..], t);
        assert (d + v)[1..] == d' + v[2..];
        assert d + v == [BACKSLASH] + (d' + v[2..]);
      }
    }
  }

  lemma HasTail(v: string)
    requires Has(v, BACKSLASH) && v[0] != BACKSLASH
    ensures Has(v[1..], BACKSLASH)
  {
    var i :| 0 <= i < |v| && v[i] == BACKSLASH;
    assert v[1..][i - 1] == BACKSLASH;
  }

  /** Reading the text of a value that starts with anything but a backslash. */
  lemma PlainCharacter(v: string, t: string)
    requires v != [] && v[0] != BACKSLASH
    ensures ParseValue(Escape(v) + t) == Prepend([v[0]], ParseValue(Escape(v[1..]) + t))
  {
    var rest := Escape(v[1..]) + t;
    if v[0] == COMMA {
      assert Escape(v) + t == [BACKSLASH, COMMA] + rest;
      assert ([BACKSLASH, COMMA] + rest)[2..] == rest;
    } else {
      assert Escape(v) + t == [v[0]] + rest;
      assert ([v[0]] + rest)[1..] == rest;
    }
  }

  /** Reading the text of a value that starts with one: the value read is short, starts otherwise,
      or starts with the second of two backslashes. */
  lemma Backslash(v: string, t: string)
    requires v != [] && v[0] == BACKSLASH && Separated(t)
    ensures var r := ParseValue(Escape(v) + t);
            if |v| > 1 && v[1] == BACKSLASH then r == Prepend([BACKSLASH], ParseValue(Escape(v[2..]) + t))
            else if |v| > 1 && v[1] == COMMA then r.Some? && r.value.0 == [BACKSLASH]
            else r.Some? ==> r.value.0 != [] && r.value.0[0] != BACKSLASH
  {
    var rest := Escape(v[1..]) + t;
    assert Escape(v) + t == [BACKSLASH] + rest;
    Unescaped(rest);
    if |v| > 1 {
      assert v[1..][1..] == v[2..];
      EscapedNext(v[1..], t);
    } else {
      assert rest == t;
    }
  }

  lemma Unescaped(rest: string)
    ensures ParseValue([BACKSLASH] + rest) == if rest == [] then None else Prepend([rest[0]], ParseValue(rest[1..]))
  {
    assert rest != [] ==> ([BACKSLASH] + rest)[2..] == rest[1..];
  }

  lemma EscapedNext(v: string, t: string)
    requires v != []
    ensures var rest := Escape(v) + t;
            if v[0] == COMMA then rest[0] == BACKSLASH && ParseValue(rest[1..]).Some? && ParseValue(rest[1..]).value.0 == []
            else rest[0] == v[0] && rest[1..] == Escape(v[1..]) + t
  {
    var rest, more := Escape(v) + t, Escape(v[1..]) + t;
    if v[0] == COMMA {
      assert rest == [BACKSLASH] + ([COMMA] + more);
      assert rest[1..][0] == COMMA;
    } else {
      assert rest == [v[0]] + more;
    }
  }

  /** Reading the text of an entry: the key stops at the first equals sign. */
  lemma KeyRead(e: Entry, t: string)
    ensures var s := EntryText(e) + t;
            var k := FindAny(s, '=', '=');
            && k <= |e.key| && (k == |e.key| <==> !Has(e.key, '='))
            && s != [] && k < |s| && (k == |e.key| ==> s[..k] == e.key && s[k + 1..] == Escape(e.value) + t)
  {
    var s := EntryText(e) + t;
    assert s == e.key + "=" + (Escape(e.value) + t);
    hide Escape;
    assert s[|e.key|] == '=';
    var k := FindAny(s, '=', '=');
    assert forall i :: 0 <= i < |e.key| ==> s[i] == e.key[i];
    if k < |e.key| { assert e.key[k] == '='; }
  }

  lemma SeparatedTail(entries: seq<Entry>)
    ensures Separated(Tail(entries))
    ensures entries != [] ==> Tail(entries)[1..] == " " + NameOf(entries)
  {
    hide EntryText;
    if entries != [] {
      var e, t := EntryText(entries[0]), Tail(entries[1..]);
      assert ", " == [COMMA] + " ";
      assert ", " + e + t == [COMMA] + (" " + (e + t));
    }
  }

  /** The first entry read from a text. */
  lemma FirstEntry(s: string, entries: seq<Entry>)
    requires s != [] && VectorOf(s) == Some(entries)
    ensures entries != [] && entries[0].key == s[..FindAny(s, '=', '=')]
  {
    hide ParseValue, SkipSpaces, FindAny;
    VectorStep(s);
  }

  /** A key that starts with a space is not read back where spaces are skipped. */
  lemma SpaceLost(entries: seq<Entry>)
    requires entries != [] && StartsWithSpace(entries[0].key)
    ensures VectorOf(SkipSpaces(NameOf(entries))) != Some(entries)
  {
    var s := SkipSpaces(NameOf(entries));
    hide NameOf, VectorOf, SkipSpaces, FindAny;
    if s != [] && VectorOf(s) == Some(entries) {
      FirstEntry(s, entries);
    } else if s == [] {
      NothingRead();
    }
  }

  lemma NothingRead()
    ensures VectorOf([]) == Some([])
  {
  }

  /** One entry in front of others is read back exactly when it is plain and they are. */
  lemma EntryRoundTrip(entries: seq<Entry>)
    requires entries != []
    ensures VectorOf(NameOf(entries)) == Some(entries)
       <==> && !Has(entries[0].key, '=') && !Has(entries[0].value, BACKSLASH)
            && VectorOf(SkipSpaces(NameOf(entries[1..]))) == Some(entries[1..])
  {
    var e, t := entries[0], Tail(entries[1..]);
    var s := NameOf(entries);
    KeyRead(e, t);
    VectorStep(s);
    SeparatedTail(entries[1..]);
    SkipOne(entries[1..]);
    hide Escape, ParseValue, VectorOf, SkipSpaces, FindAny, Tail, NameOf, EntryText;
    if Has(e.key, '=') {
      WrongKey(s, entries);
    } else if Has(e.value, BACKSLASH) {
      ValueWithBackslash([], e.value, t);
      assert [] + e.value == e.value;
    } else {
      ValueRoundTrip(e.value, t);
      AfterOne(entries, VectorOf(SkipSpaces(NameOf(entries[1..]))));
    }
  }

  lemma WrongKey(s: string, entries: seq<Entry>)
    requires s != [] && entries != [] && FindAny(s, '=', '=') < |entries[0].key|
    ensures VectorOf(s) != Some(entries)
  {
    hide VectorOf, FindAny;
    if VectorOf(s) == Some(entries) { FirstEntry(s, entries); }
  }

  lemma AfterOne(entries: seq<Entry>, r: Option<seq<Entry>>)
    requires entries != []
    ensures After([entries[0]], r) == Some(entries) <==> r == Some(entries[1..])
  {
    assert entries == [entries[0]] + entries[1..];
    if r.Some? { assert ([entries[0]] + r.value)[1..] == r.value; }
  }

  /** What is left after an entry and the comma, once spaces are skipped. */
  lemma SkipOne(entries: seq<Entry>)
    ensures var t := Tail(entries);
            SkipSpaces(if t == [] then [] else t[1..]) == SkipSpaces(NameOf(entries))
  {
    SeparatedTail(entries);
    if entries != [] { assert (" " + NameOf(entries))[1..] == NameOf(entries); }
  }

  /** The text of any entries, spaces in front skipped or not, gives them back exactly when they are
      plain. */
  lemma {:induction false} RoundTripFrom(entries: seq<Entry>, first: bool)
    ensures var s := if first then NameOf(entries) else SkipSpaces(NameOf(entries));
            VectorOf(s) == Some(entries) <==> Plain(entries, first)
  {
    if entries == [] {
    } else if !first && StartsWithSpace(entries[0].key) {
      SpaceLost(entries);
    } else {
      if !first { NothingSkipped(entries); }
      EntryRoundTrip(entries);
      RoundTripFrom(entries[1..], false);
      hide VectorOf, SkipSpaces, NameOf;
    }
  }

  lemma NothingSkipped(entries: seq<Entry>)
    requires entries != [] && !StartsWithSpace(entries[0].key)
    ensures SkipSpaces(NameOf(entries)) == NameOf(entries)
  {
    var s := NameOf(entries);
    assert s[0] == if entries[0].key == [] then '=' else entries[0].key[0];
  }

  /** The round trip: building a name and reading it back gives the same entries, exactly when no key
      has an equals sign, none but the first starts with a space, and no value has a backslash. */
  lemma RoundTrip(entries: seq<Entry>)
    ensures VectorOf(NameOf(entries)) == Some(entries)
       <==> forall i :: 0 <= i < |entries| ==>
              && !Has(entries[i].key, '=') && (i > 0 ==> !StartsWithSpace(entries[i].key))
              && !Has(entries[i].value, BACKSLASH)
  {
    RoundTripFrom(entries, true);
    hide VectorOf, NameOf;
    PlainIsAll(entries, true);
  }

  lemma {:induction false} PlainIsAll(entries: seq<Entry>, first: bool)
    ensures Plain(entries, first)
       <==> forall i :: 0 <= i < |entries| ==>
              && !Has(entries[i].key, '=') && (i > 0 || !first ==> !StartsWithSpace(entries[i].key))
              && !Has(entries[i].value, BACKSLASH)
  {
    hide Has, StartsWithSpace;
    if entries != [] {
      PlainIsAll(entries[1..], false);
      assert entries == [entries[0]] + entries[1..];
    }
  }

  // ---- Reading beyond the text

  /** Where in a name a text ends: in a key, in a value, or in a value right after a backslash that escapes
      what comes next. */
  datatype Place = InKey | InValue | Escaping {
    function Then(c: char): Place
    {
      match this
      case InKey => if c == '=' then InValue else InKey
      case InValue => if c == COMMA then InKey else if c == BACKSLASH then Escaping else InValue
      case Escaping => InValue
    }
  }

  function PlaceAfter(start: Place, s: string): Place
    decreases |s|
  {
    if s == [] then start else PlaceAfter(start.Then(s[0]), s[1..])
  }

  /** How many backslashes end the text. */
  function Trailing(s: string): (n: nat)
    ensures n <= |s| && AllBackslashes(s[|s| - n..]) && (n < |s| ==> s[|s| - n - 1] != BACKSLASH)
  {
    if s == [] || s[|s| - 1] != BACKSLASH then 0 else 1 + Trailing(s[..|s| - 1])
  }

  /** The parser reads beyond the end of the text exactly if an odd run of backslashes ends it, inside a
      value. */
  lemma ReadsBeyondExactly(s: string)
    ensures VectorOf(s).None? <==> Trailing(s) % 2 == 1 && PlaceAfter(InKey, s[..|s| - Trailing(s)]) == InValue
  {
    hide VectorOf, PlaceAfter, Trailing;
    NoneExactly(s);
    RunExactly(s);
  }

  /** A built name that does it: its last value is one backslash. */
  lemma BackslashReadsBeyond(key: string)
    requires !Has(key, '=')
    ensures VectorOf(NameOf([Entry(key, [BACKSLASH])])) == None
  {
    var e := Entry(key, [BACKSLASH]);
    KeyRead(e, []);
    assert Escape([BACKSLASH]) + [] == [BACKSLASH];
    assert NameOf([e]) == EntryText(e) + [] by { assert [e][1..] == []; }
    VectorStep(NameOf([e]));
  }

  lemma {:induction false} ValuePlace(s: string)
    ensures var r := ParseValue(s);
            PlaceAfter(InValue, s) == Escaping <==> r.None? || PlaceAfter(InKey, r.value.1) == Escaping
  {
    if s == [] || s[0] == COMMA {
    } else if s[0] == BACKSLASH {
      if |s| >= 2 {
        ValuePlace(s[2..]);
        assert s[1..][1..] == s[2..];
      }
    } else {
      ValuePlace(s[1..]);
    }
  }

  lemma {:induction false} KeyPlace(s: string)
    ensures var k := FindAny(s, '=', '=');
            PlaceAfter(InKey, s) == if k < |s| then PlaceAfter(InValue, s[k + 1..]) else InKey
  {
    if s != [] && s[0] != '=' {
      KeyPlace(s[1..]);
      var k := FindAny(s[1..], '=', '=');
      assert k < |s[1..]| ==> s[1..][k + 1..] == s[k + 2..];
    }
  }

  lemma {:induction false} SpacesPlace(s: string)
    ensures PlaceAfter(InKey, SkipSpaces(s)) == PlaceAfter(InKey, s)
  {
    if s != [] && s[0] == ' ' { SpacesPlace(s[1..]); }
  }

  lemma {:induction false} NoneExactly(s: string)
    ensures VectorOf(s).None? <==> PlaceAfter(InKey, s) == Escaping
    decreases |s|
  {
    if s != [] {
      VectorStep(s);
      KeyPlace(s);
      hide ParseValue, FindAny, SkipSpaces, PlaceAfter, VectorOf;
      var k := FindAny(s, '=', '=');
      var t := if k < |s| then s[k + 1..] else [];
      var r := ParseValue(t);
      ValuePlace(t);
      EmptyPlace();
      if r.Some? {
        SpacesPlace(r.value.1);
        NoneExactly(SkipSpaces(r.value.1));
      }
    }
  }

  lemma EmptyPlace()
    ensures forall p :: PlaceAfter(p, []) == p
  {
  }

  lemma {:induction false} PlaceMore(start: Place, s: string, c: char)
    ensures PlaceAfter(start, s + [c]) == PlaceAfter(start, s).Then(c)
    decreases |s|
  {
    if s == [] {
      assert [] + [c] == [c] && [c][1..] == [];
    } else {
      PlaceMore(start.Then(s[0]), s[1..], c);
      assert (s + [c])[1..] == s[1..] + [c];
    }
  }

  /** A run of backslashes leaves a key where it is, and escapes in turn in a value. */
  lemma {:induction false} RunExactly(s: string)
    ensures var n := Trailing(s); var p := PlaceAfter(InKey, s[..|s| - n]);
            && p != Escaping
            && PlaceAfter(InKey, s) == if p == InKey then InKey else if n % 2 == 1 then Escaping else InValue
  {
    if s != [] {
      var front, c := s[..|s| - 1], s[|s| - 1];
      assert s == front + [c];
      PlaceMore(InKey, front, c);
      hide PlaceAfter;
      if c == BACKSLASH {
        RunExactly(front);
        assert front[..|front| - Trailing(front)] == s[..|s| - Trailing(s)];
      } else {
        assert s[..|s|] == s;
        NotEscaping(PlaceAfter(InKey, front), c);
      }
    }
  }

  lemma NotEscaping(p: Place, c: char)
    requires c != BACKSLASH
    ensures p.Then(c) != Escaping
  {
  }
}
