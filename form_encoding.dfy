/**
 * The text formats the authentication requests are built in: a list joined
 * with a separator (QStringList::join) and a form body `k1=v1&k2=v2&...`
 * written without percent-encoding.
 *
 * The readers here are plain splitters: `Split` cuts at a separator and
 * `FormDecode` cuts a body at '&' and each field at its first '='. They do
 * not percent-decode and do not read '+' as a space. They are the partners
 * of the builders: a body built by the client splits back into exactly the
 * parameters it was built from.
 */
module FormEncoding {

  /** `xs` joined with `sep` between consecutive elements; the empty list joins to "". */
  function Join(xs: seq<string>, sep: char): (s: string)
    ensures forall c :: c in s ==> c == sep || exists i :: 0 <= i < |xs| && c in xs[i]
  {
    if |xs| == 0 then ""
    else if |xs| == 1 then xs[0]
    else xs[0] + [sep] + Join(xs[1..], sep)
  }

  /** `s` cut at every occurrence of `sep`; "" splits into [""]. */
  function Split(s: string, sep: char): (parts: seq<string>)
    ensures |parts| > 0
    ensures |parts| == 1 <==> sep !in s
  {
    if s == [] then [""]
    else
      var rest := Split(s[1..], sep);
      if s[0] == sep then [""] + rest
      else [[s[0]] + rest[0]] + rest[1..]
  }

  /** `s` cut at the first occurrence of `sep`; without one, the whole of `s` and "". */
  function Cut(s: string, sep: char): (r: (string, string))
    ensures sep !in r.0
    ensures sep in s ==> r.0 + [sep] + r.1 == s
    ensures sep !in s ==> r == (s, "")
  {
    if s == [] then ("", "")
    else if s[0] == sep then ("", s[1..])
    else
      var r := Cut(s[1..], sep);
      assert [s[0]] + s[1..] == s;
      ([s[0]] + r.0, r.1)
  }

  /** Each parameter written as `key=value`. */
  function EncodeFields(params: seq<(string, string)>): (fields: seq<string>)
    ensures |fields| == |params|
    ensures forall i :: 0 <= i < |params| ==> fields[i] == params[i].0 + "=" + params[i].1
  {
    if params == [] then []
    else [params[0].0 + "=" + params[0].1] + EncodeFields(params[1..])
  }

  /** A form body: the parameters' `key=value` fields joined with '&'. */
  function FormEncode(params: seq<(string, string)>): string
  {
    Join(EncodeFields(params), '&')
  }

  /** Each field read back as a key and a value, cut at its first '='. */
  function DecodeFields(fields: seq<string>): (params: seq<(string, string)>)
    ensures |params| == |fields|
  {
    if fields == [] then []
    else [Cut(fields[0], '=')] + DecodeFields(fields[1..])
  }

  /** The parameters a plain splitter reads back from a form body. */
  function FormDecode(body: string): seq<(string, string)>
  {
    DecodeFields(Split(body, '&'))
  }

  lemma FormEncodeOne(k: string, v: string)
    ensures FormEncode([(k, v)]) == k + "=" + v
  {
    assert EncodeFields([(k, v)]) == [k + "=" + v];
  }

  lemma FormEncodeCons(k: string, v: string, rest: seq<(string, string)>)
    requires |rest| > 0
    ensures FormEncode([(k, v)] + rest) == k + "=" + v + "&" + FormEncode(rest)
  {
    var fields := EncodeFields([(k, v)] + rest);
    assert fields == [k + "=" + v] + EncodeFields(rest) by {
      assert ([(k, v)] + rest)[1..] == rest;
    }
    assert fields[1..] == EncodeFields(rest);
  }

  /** Keys free of '&' and '=', values free of '&': nothing that the
      unescaped encoding would misread. */
  predicate Encodable(params: seq<(string, string)>)
  {
    forall i :: 0 <= i < |params| ==> '&' !in params[i].0 && '=' !in params[i].0 && '&' !in params[i].1
  }

  lemma {:induction false} SplitWithoutSeparator(a: string, sep: char)
    requires sep !in a
    ensures Split(a, sep) == [a]
  {
    if a != [] {
      SplitWithoutSeparator(a[1..], sep);
      assert [a[0]] + a[1..] == a;
    }
  }

  lemma {:induction false} SplitAtSeparator(a: string, sep: char, b: string)
    requires sep !in a
    ensures Split(a + [sep] + b, sep) == [a] + Split(b, sep)
  {
    if a == [] {
      assert a + [sep] + b == [sep] + b;
      assert ([sep] + b)[1..] == b;
    } else {
      var s := a + [sep] + b;
      assert s[0] == a[0] && s[0] != sep;
      assert s[1..] == a[1..] + [sep] + b;
      SplitAtSeparator(a[1..], sep, b);
      var rest := Split(s[1..], sep);
      assert rest[0] == a[1..] && rest[1..] == Split(b, sep);
      assert [a[0]] + a[1..] == a;
    }
  }

  /** Splitting a joined list at the separator gives the list back, when no
      element holds the separator. */
  lemma {:induction false} SplitJoin(xs: seq<string>, sep: char)
    requires |xs| > 0
    requires forall i :: 0 <= i < |xs| ==> sep !in xs[i]
    ensures Split(Join(xs, sep), sep) == xs
  {
    if |xs| == 1 {
      SplitWithoutSeparator(xs[0], sep);
    } else {
      SplitJoin(xs[1..], sep);
      SplitAtSeparator(xs[0], sep, Join(xs[1..], sep));
    }
  }

  lemma {:induction false} CutAtFirst(k: string, sep: char, v: string)
    requires sep !in k
    ensures Cut(k + [sep] + v, sep) == (k, v)
  {
    if k == [] {
      assert k + [sep] + v == [sep] + v;
      assert ([sep] + v)[1..] == v;
    } else {
      CutAtFirst(k[1..], sep, v);
      assert (k + [sep] + v)[1..] == k[1..] + [sep] + v;
      assert [k[0]] + k[1..] == k;
    }
  }

  lemma {:induction false} DecodeEncodeFields(params: seq<(string, string)>)
    requires Encodable(params)
    ensures DecodeFields(EncodeFields(params)) == params
  {
    if params != [] {
      var k, v := params[0].0, params[0].1;
      assert k + "=" + v == k + ['='] + v;
      CutAtFirst(k, '=', v);
      assert EncodeFields(params)[1..] == EncodeFields(params[1..]);
      assert Encodable(params[1..]) by {
        forall i | 0 <= i < |params| - 1
          ensures '&' !in params[1..][i].0 && '=' !in params[1..][i].0 && '&' !in params[1..][i].1
        {
          assert params[1..][i] == params[i + 1];
        }
      }
      DecodeEncodeFields(params[1..]);
    }
  }

  /** Round trip: a non-empty list of encodable parameters is read back
      exactly, in order, from the body built from it. */
  lemma {:induction false} FormRoundTrip(params: seq<(string, string)>)
    requires |params| > 0
    requires Encodable(params)
    ensures FormDecode(FormEncode(params)) == params
  {
    var fields := EncodeFields(params);
    forall i | 0 <= i < |fields| ensures '&' !in fields[i] {
      assert fields[i] == params[i].0 + "=" + params[i].1;
    }
    SplitJoin(fields, '&');
    DecodeEncodeFields(params);
  }

  /** FormRoundTrip, for a body already known to be the encoding of `params`. */
  lemma DecodesTo(body: string, params: seq<(string, string)>)
    requires |params| > 0 && Encodable(params)
    requires body == FormEncode(params)
    ensures FormDecode(body) == params
  {
    FormRoundTrip(params);
  }

  // Bodies written out field by field, as a client writes them: a lead
  // `k=` for the first field, `&k=` for each one after it. Each lemma adds
  // one field in front of an encoded tail.

  lemma LeadLast(lead: string, k: string, v: string)
    requires lead == "&" + k + "="
    ensures lead + v == "&" + FormEncode([(k, v)])
  {
    FormEncodeOne(k, v);
  }

  lemma LeadInner(lead: string, k: string, v: string, rest: seq<(string, string)>, tail: string)
    requires lead == "&" + k + "="
    requires |rest| > 0 && tail == "&" + FormEncode(rest)
    ensures lead + v + tail == "&" + FormEncode([(k, v)] + rest)
  {
    FormEncodeCons(k, v, rest);
  }

  lemma LeadFirst(lead: string, k: string, v: string, rest: seq<(string, string)>, tail: string)
    requires lead == k + "="
    requires |rest| > 0 && tail == "&" + FormEncode(rest)
    ensures lead + v + tail == FormEncode([(k, v)] + rest)
  {
    FormEncodeCons(k, v, rest);
  }

  /** A two-field body written out by hand is the encoding of its two parameters. */
  lemma EncodeTwoFields(l0: string, k0: string, v0: string, l1: string, k1: string, v1: string)
    requires l0 == k0 + "=" && l1 == "&" + k1 + "="
    ensures l0 + v0 + l1 + v1 == FormEncode([(k0, v0), (k1, v1)])
  {
    LeadLast(l1, k1, v1);
    LeadFirst(l0, k0, v0, [(k1, v1)], l1 + v1);
    assert l0 + v0 + (l1 + v1) == l0 + v0 + l1 + v1;
    assert [(k0, v0)] + [(k1, v1)] == [(k0, v0), (k1, v1)];
  }

  /** A four-field body written out by hand is the encoding of its four parameters, in order. */
  lemma EncodeFourFields(l0: string, k0: string, v0: string, l1: string, k1: string, v1: string,
                         l2: string, k2: string, v2: string, l3: string, k3: string, v3: string)
    requires l0 == k0 + "=" && l1 == "&" + k1 + "=" && l2 == "&" + k2 + "=" && l3 == "&" + k3 + "="
    ensures l0 + v0 + l1 + v1 + l2 + v2 + l3 + v3 == FormEncode([(k0, v0), (k1, v1), (k2, v2), (k3, v3)])
  {
    var p3 := [(k3, v3)];
    var p2 := [(k2, v2)] + p3;
    var p1 := [(k1, v1)] + p2;
    LeadLast(l3, k3, v3);
    LeadInner(l2, k2, v2, p3, l3 + v3);
    LeadInner(l1, k1, v1, p2, l2 + v2 + (l3 + v3));
    LeadFirst(l0, k0, v0, p1, l1 + v1 + (l2 + v2 + (l3 + v3)));
    NestRightFour(l0, v0, l1, v1, l2, v2, l3, v3);
    assert [(k0, v0)] + p1 == [(k0, v0), (k1, v1), (k2, v2), (k3, v3)];
  }

  /** A five-field body written out by hand is the encoding of its five parameters, in order. */
  lemma EncodeFiveFields(l0: string, k0: string, v0: string, l1: string, k1: string, v1: string,
                         l2: string, k2: string, v2: string, l3: string, k3: string, v3: string,
                         l4: string, k4: string, v4: string)
    requires l0 == k0 + "=" && l1 == "&" + k1 + "=" && l2 == "&" + k2 + "=" && l3 == "&" + k3 + "="
    requires l4 == "&" + k4 + "="
    ensures l0 + v0 + l1 + v1 + l2 + v2 + l3 + v3 + l4 + v4 ==
      FormEncode([(k0, v0), (k1, v1), (k2, v2), (k3, v3), (k4, v4)])
  {
    var p4 := [(k4, v4)];
    var p3 := [(k3, v3)] + p4;
    var p2 := [(k2, v2)] + p3;
    var p1 := [(k1, v1)] + p2;
    var t4 := l4 + v4;
    var t3 := l3 + v3 + t4;
    var t2 := l2 + v2 + t3;
    var t1 := l1 + v1 + t2;
    LeadLast(l4, k4, v4);
    LeadInner(l3, k3, v3, p4, t4);
    LeadInner(l2, k2, v2, p3, t3);
    LeadInner(l1, k1, v1, p2, t2);
    LeadFirst(l0, k0, v0, p1, t1);
    NestRight(l0, v0, l1, v1, l2, v2, l3, v3, l4, v4);
    assert [(k0, v0)] + p1 == [(k0, v0), (k1, v1), (k2, v2), (k3, v3), (k4, v4)];
  }

  /** A key the encoding can carry and a value free of '&'. */
  predicate FieldOk(k: string, v: string)
  {
    '&' !in k && '=' !in k && '&' !in v
  }

  lemma EncodableCons(k: string, v: string, rest: seq<(string, string)>)
    requires FieldOk(k, v) && Encodable(rest)
    ensures Encodable([(k, v)] + rest)
  {
    var p := [(k, v)] + rest;
    forall i | 0 <= i < |p| ensures '&' !in p[i].0 && '=' !in p[i].0 && '&' !in p[i].1 {
      if i > 0 {
        assert p[i] == rest[i - 1];
      }
    }
  }

  /** A two-field body is read back as its two parameters. */
  lemma DecodeTwoFields(l0: string, k0: string, v0: string, l1: string, k1: string, v1: string)
    requires l0 == k0 + "=" && l1 == "&" + k1 + "="
    requires FieldOk(k0, v0) && FieldOk(k1, v1)
    ensures FormDecode(l0 + v0 + l1 + v1) == [(k0, v0), (k1, v1)]
  {
    EncodeTwoFields(l0, k0, v0, l1, k1, v1);
    EncodableCons(k1, v1, []);
    EncodableCons(k0, v0, [(k1, v1)]);
    assert [(k1, v1)] + [] == [(k1, v1)];
    assert [(k0, v0)] + [(k1, v1)] == [(k0, v0), (k1, v1)];
    DecodesTo(l0 + v0 + l1 + v1, [(k0, v0), (k1, v1)]);
  }

  /** A four-field body is read back as its four parameters, in order. */
  lemma DecodeFourFields(l0: string, k0: string, v0: string, l1: string, k1: string, v1: string,
                         l2: string, k2: string, v2: string, l3: string, k3: string, v3: string)
    requires l0 == k0 + "=" && l1 == "&" + k1 + "=" && l2 == "&" + k2 + "=" && l3 == "&" + k3 + "="
    requires FieldOk(k0, v0) && FieldOk(k1, v1) && FieldOk(k2, v2) && FieldOk(k3, v3)
    ensures FormDecode(l0 + v0 + l1 + v1 + l2 + v2 + l3 + v3) == [(k0, v0), (k1, v1), (k2, v2), (k3, v3)]
  {
    var p3 := [(k3, v3)];
    var p2 := [(k2, v2)] + p3;
    var p1 := [(k1, v1)] + p2;
    var p0 := [(k0, v0)] + p1;
    EncodeFourFields(l0, k0, v0, l1, k1, v1, l2, k2, v2, l3, k3, v3);
    EncodableCons(k3, v3, []);
    assert [(k3, v3)] + [] == p3;
    EncodableCons(k2, v2, p3);
    EncodableCons(k1, v1, p2);
    EncodableCons(k0, v0, p1);
    assert p0 == [(k0, v0), (k1, v1), (k2, v2), (k3, v3)];
    DecodesTo(l0 + v0 + l1 + v1 + l2 + v2 + l3 + v3, p0);
  }

  /** A five-field body is read back as its five parameters, in order. */
  lemma DecodeFiveFields(l0: string, k0: string, v0: string, l1: string, k1: string, v1: string,
                         l2: string, k2: string, v2: string, l3: string, k3: string, v3: string,
                         l4: string, k4: string, v4: string)
    requires l0 == k0 + "=" && l1 == "&" + k1 + "=" && l2 == "&" + k2 + "=" && l3 == "&" + k3 + "="
    requires l4 == "&" + k4 + "="
    requires FieldOk(k0, v0) && FieldOk(k1, v1) && FieldOk(k2, v2) && FieldOk(k3, v3) && FieldOk(k4, v4)
    ensures FormDecode(l0 + v0 + l1 + v1 + l2 + v2 + l3 + v3 + l4 + v4) ==
      [(k0, v0), (k1, v1), (k2, v2), (k3, v3), (k4, v4)]
  {
    var p4 := [(k4, v4)];
    var p3 := [(k3, v3)] + p4;
    var p2 := [(k2, v2)] + p3;
    var p1 := [(k1, v1)] + p2;
    var p0 := [(k0, v0)] + p1;
    EncodeFiveFields(l0, k0, v0, l1, k1, v1, l2, k2, v2, l3, k3, v3, l4, k4, v4);
    EncodableCons(k4, v4, []);
    assert [(k4, v4)] + [] == p4;
    EncodableCons(k3, v3, p4);
    EncodableCons(k2, v2, p3);
    EncodableCons(k1, v1, p2);
    EncodableCons(k0, v0, p1);
    assert p0 == [(k0, v0), (k1, v1), (k2, v2), (k3, v3), (k4, v4)];
    DecodesTo(l0 + v0 + l1 + v1 + l2 + v2 + l3 + v3 + l4 + v4, p0);
  }

  lemma NestRight(a: string, b: string, c: string, d: string, e: string, f: string,
                  g: string, h: string, i: string, j: string)
    ensures a + b + c + d + e + f + g + h + i + j == a + b + (c + d + (e + f + (g + h + (i + j))))
  {
  }

  lemma NestRightFour(a: string, b: string, c: string, d: string, e: string, f: string, g: string, h: string)
    ensures a + b + c + d + e + f + g + h == a + b + (c + d + (e + f + (g + h)))
  {
  }
}
