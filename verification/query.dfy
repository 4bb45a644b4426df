/** URLs of the form `base?k1=v1&k2=v2`, which the update-token providers
    build by plain string formatting (no escaping). `Encode` is how such a
    URL is put together; `Decode` reads the base and the parameters back,
    splitting the query on '&' and each field at its first '='. The round
    trip holds exactly when no key or value contains a separator, which is
    the condition under which the providers' URLs mean what they say. */
module Query {

  datatype Param = Param(key: string, value: string)

  predicate NoChar(s: string, c: char) {
    forall i :: 0 <= i < |s| ==> s[i] != c
  }

  /** A parameter that survives the round trip: its key contains neither
      separator and its value contains no '&'. */
  predicate Plain(p: Param) {
    NoChar(p.key, '&') && NoChar(p.key, '=') && NoChar(p.value, '&')
  }

  function Field(p: Param): string {
    p.key + "=" + p.value
  }

  /** The query string `k1=v1&k2=v2&...`. */
  function Join(ps: seq<Param>): string {
    if |ps| == 0 then ""
    else if |ps| == 1 then Field(ps[0])
    else Field(ps[0]) + "&" + Join(ps[1..])
  }

  /** Position of the first `c` in `s`, or `|s|` when there is none. */
  function IndexOf(s: string, c: char): (i: nat)
    ensures i <= |s|
    ensures i < |s| ==> s[i] == c
    ensures NoChar(s[..i], c)
  {
    if |s| == 0 then 0
    else if s[0] == c then 0
    else
      var k := IndexOf(s[1..], c);
      assert s[..k + 1] == [s[0]] + s[1..][..k];
      k + 1
  }

  lemma IndexOfAfter(a: string, c: char, b: string)
    requires NoChar(a, c)
    ensures IndexOf(a + [c] + b, c) == |a|
  {
    var s := a + [c] + b;
    assert s[|a|] == c;
    assert forall k :: 0 <= k < |a| ==> s[k] == a[k];
  }

  lemma IndexOfAbsent(s: string, c: char)
    requires NoChar(s, c)
    ensures IndexOf(s, c) == |s|
  {
  }

  /** Go's `strings.Split(s, sep)` for a one-character separator. */
  function Split(s: string, c: char): (parts: seq<string>)
    ensures |parts| >= 1
    decreases |s|
  {
    var i := IndexOf(s, c);
    if i == |s| then [s] else [s[..i]] + Split(s[i + 1..], c)
  }

  /** One field `k=v`, split at its first '='; a field without '=' is a key
      with an empty value. */
  function ParseField(f: string): Param {
    var i := IndexOf(f, '=');
    if i == |f| then Param(f, "") else Param(f[..i], f[i + 1..])
  }

  function ParseFields(fs: seq<string>): (ps: seq<Param>)
    ensures |ps| == |fs|
  {
    if |fs| == 0 then [] else [ParseField(fs[0])] + ParseFields(fs[1..])
  }

  function Parse(q: string): seq<Param> {
    ParseFields(Split(q, '&'))
  }

  function Encode(base: string, ps: seq<Param>): string {
    base + "?" + Join(ps)
  }

  /** The base before the first '?', and the parameters after it. */
  function Decode(url: string): (string, seq<Param>) {
    var i := IndexOf(url, '?');
    if i == |url| then (url, []) else (url[..i], Parse(url[i + 1..]))
  }

  lemma NoCharConcat(a: string, b: string, c: char)
    requires NoChar(a, c) && NoChar(b, c)
    ensures NoChar(a + b, c)
  {
  }

  lemma ParseFieldOf(p: Param)
    requires Plain(p)
    ensures ParseField(Field(p)) == p
  {
    assert Field(p) == p.key + ['='] + p.value;
    IndexOfAfter(p.key, '=', p.value);
  }

  lemma FieldNoAmp(p: Param)
    requires Plain(p)
    ensures NoChar(Field(p), '&')
  {
    NoCharConcat(p.key, "=", '&');
    NoCharConcat(p.key + "=", p.value, '&');
  }

  /** URLs of two and of three parameters, grouped the way the providers'
      format strings write them: each key between its separators. */
  lemma EncodeTwo(base: string, a: Param, b: Param)
    ensures Encode(base, [a, b]) == base + ("?" + a.key + "=") + a.value + ("&" + b.key + "=") + b.value
  {
    assert [a, b][1..] == [b];
    assert Join([b]) == Field(b);
    assert Join([a, b]) == Field(a) + "&" + Field(b);
    var ka, kb := "?" + a.key + "=", "&" + b.key + "=";
    calc {
      Encode(base, [a, b]);
      base + "?" + (a.key + "=" + a.value + "&" + (b.key + "=" + b.value));
      { assert "?" + (a.key + "=" + a.value + "&" + (b.key + "=" + b.value))
               == ka + a.value + (kb + b.value); }
      base + (ka + a.value + (kb + b.value));
      base + ka + a.value + kb + b.value;
    }
  }

  lemma EncodeThree(base: string, a: Param, b: Param, c: Param)
    ensures Encode(base, [a, b, c])
            == base + ("?" + a.key + "=") + a.value + ("&" + b.key + "=") + b.value + ("&" + c.key + "=") + c.value
  {
    assert [a, b, c][1..] == [b, c];
    EncodeTwo(base, b, c);
    var ka := "?" + a.key + "=";
    var tail := Join([b, c]);
    assert tail == ("&" + b.key + "=")[1..] + b.value + ("&" + c.key + "=") + c.value by {
      assert base + "?" + tail == base + ("?" + b.key + "=") + b.value + ("&" + c.key + "=") + c.value;
      assert ("&" + b.key + "=")[1..] == b.key + "=";
      assert tail == (base + "?" + tail)[|base| + 1..];
    }
    calc {
      Encode(base, [a, b, c]);
      base + "?" + (a.key + "=" + a.value + "&" + tail);
      base + ka + a.value + "&" + tail;
    }
  }

  /** The fields `k=v` of the parameters, in order. */
  function Fields(ps: seq<Param>): (fs: seq<string>)
    ensures |fs| == |ps|
  {
    if |ps| == 0 then [] else [Field(ps[0])] + Fields(ps[1..])
  }

  /** Splitting a join of plain fields on '&' gives back the fields. */
  lemma {:induction false} SplitJoin(ps: seq<Param>)
    requires |ps| >= 1
    requires forall k :: 0 <= k < |ps| ==> Plain(ps[k])
    ensures Split(Join(ps), '&') == Fields(ps)
  {
    var f := Field(ps[0]);
    FieldNoAmp(ps[0]);
    if |ps| == 1 {
      IndexOfAbsent(f, '&');
      assert Split(Join(ps), '&') == [f];
    } else {
      var rest := Join(ps[1..]);
      var j := Join(ps);
      assert j == f + ['&'] + rest;
      IndexOfAfter(f, '&', rest);
      assert j[..|f|] == f;
      assert j[|f| + 1..] == rest;
      assert Split(j, '&') == [f] + Split(rest, '&');
      SplitJoin(ps[1..]);
    }
  }

  lemma {:induction false} ParseFieldsOf(ps: seq<Param>)
    requires forall k :: 0 <= k < |ps| ==> Plain(ps[k])
    ensures ParseFields(Fields(ps)) == ps
  {
    if |ps| > 0 {
      ParseFieldOf(ps[0]);
      ParseFieldsOf(ps[1..]);
      assert Fields(ps)[1..] == Fields(ps[1..]);
      assert ps == [ps[0]] + ps[1..];
    }
  }

  /** The base of a URL is everything before its first '?'. */
  lemma DecodeAt(base: string, q: string)
    requires NoChar(base, '?')
    ensures Decode(base + "?" + q) == (base, Parse(q))
  {
    var url := base + "?" + q;
    assert url == base + ['?'] + q;
    IndexOfAfter(base, '?', q);
    assert url[..|base|] == base;
    assert url[|base| + 1..] == q;
  }

  /** Round trip: decoding an encoded URL recovers its base and parameters,
      provided the base has no '?' and every parameter is plain. */
  lemma DecodeEncode(base: string, ps: seq<Param>)
    requires NoChar(base, '?')
    requires |ps| >= 1
    requires forall k :: 0 <= k < |ps| ==> Plain(ps[k])
    ensures Decode(Encode(base, ps)) == (base, ps)
  {
    DecodeAt(base, Join(ps));
    SplitJoin(ps);
    ParseFieldsOf(ps);
  }
}
