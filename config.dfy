/** The `cors_origins` property of the application settings: the
    `ALLOWED_ORIGINS` string split on commas, each piece stripped of
    surrounding whitespace (app/config.py). */
module Config {

  /** The default value of `ALLOWED_ORIGINS`. */
  const DefaultAllowedOrigins: string := "http://localhost:3000"

  /** The characters Python's `str.strip()` removes (those for which
      `str.isspace()` holds). */
  predicate IsWhitespace(c: char)
  {
    ('\U{9}' <= c <= '\U{D}') || ('\U{1C}' <= c <= '\U{20}')
    || c == '\U{85}' || c == '\U{A0}' || c == '\U{1680}'
    || ('\U{2000}' <= c <= '\U{200A}') || c == '\U{2028}' || c == '\U{2029}'
    || c == '\U{202F}' || c == '\U{205F}' || c == '\U{3000}'
  }

  /** Number of commas in `s`. */
  function CommaCount(s: string): nat
  {
    if s == [] then 0 else (if s[0] == ',' then 1 else 0) + CommaCount(s[1..])
  }

  /** `s.split(",")`: the maximal comma-free pieces between commas, empty
      pieces included. */
  function Split(s: string): (pieces: seq<string>)
    ensures |pieces| == CommaCount(s) + 1
    ensures forall i :: 0 <= i < |pieces| ==> ',' !in pieces[i]
  {
    if s == [] then [""]
    else
      var rest := Split(s[1..]);
      if s[0] == ',' then [""] + rest
      else [[s[0]] + rest[0]] + rest[1..]
  }

  /** `",".join(pieces)`. */
  function Join(pieces: seq<string>): string
  {
    if pieces == [] then ""
    else if |pieces| == 1 then pieces[0]
    else pieces[0] + "," + Join(pieces[1..])
  }

  /** Joining the pieces back with commas gives the original string, so no
      character is lost and the pieces keep the input order. */
  lemma {:induction false} JoinSplit(s: string)
    ensures Join(Split(s)) == s
  {
    if s != [] {
      var rest := Split(s[1..]);
      JoinSplit(s[1..]);
      if s[0] == ',' {
        assert Split(s) == [""] + rest;
        assert Join(Split(s)) == "" + "," + Join(rest);
      } else {
        var head := [s[0]] + rest[0];
        assert Split(s) == [head] + rest[1..];
        if |rest| == 1 {
          assert Join(Split(s)) == head;
        } else {
          assert Join(rest) == rest[0] + "," + Join(rest[1..]);
          assert Join(Split(s)) == head + "," + Join(rest[1..]);
        }
      }
    }
  }

  /** A string without commas splits into itself alone. */
  lemma {:induction false} SplitWithoutComma(s: string)
    requires ',' !in s
    ensures Split(s) == [s]
  {
    if s != [] {
      assert s[0] != ',' && ',' !in s[1..];
      SplitWithoutComma(s[1..]);
      assert s == [s[0]] + s[1..];
    }
  }

  /** Where `strip()` cuts: `s[..lo]` and `s[hi..]` are all whitespace and,
      when something remains, it starts and ends with a non-whitespace char. */
  function StripBounds(s: string): (b: (nat, nat))
    ensures b.0 <= b.1 <= |s|
    ensures forall k :: 0 <= k < b.0 ==> IsWhitespace(s[k])
    ensures forall k :: b.1 <= k < |s| ==> IsWhitespace(s[k])
    ensures b.0 < b.1 ==> !IsWhitespace(s[b.0]) && !IsWhitespace(s[b.1 - 1])
    ensures b.0 == b.1 ==> forall k :: 0 <= k < |s| ==> IsWhitespace(s[k])
  {
    var lo := LeadingWhitespace(s, 0);
    var hi := TrailingEnd(s, lo, |s|);
    (lo, hi)
  }

  /** The first index at or after `i` that is not whitespace (or |s|). */
  function LeadingWhitespace(s: string, i: nat): (lo: nat)
    requires i <= |s|
    ensures i <= lo <= |s|
    ensures forall k :: i <= k < lo ==> IsWhitespace(s[k])
    ensures lo < |s| ==> !IsWhitespace(s[lo])
    decreases |s| - i
  {
    if i == |s| || !IsWhitespace(s[i]) then i else LeadingWhitespace(s, i + 1)
  }

  /** The end, at most `j` and at least `lo`, after which only whitespace follows in `s[lo..j]`. */
  function TrailingEnd(s: string, lo: nat, j: nat): (hi: nat)
    requires lo <= j <= |s|
    requires lo < |s| ==> !IsWhitespace(s[lo])
    ensures lo <= hi <= j
    ensures forall k :: hi <= k < j ==> IsWhitespace(s[k])
    ensures lo < hi ==> !IsWhitespace(s[hi - 1])
    decreases j
  {
    if j == lo || !IsWhitespace(s[j - 1]) then j else TrailingEnd(s, lo, j - 1)
  }

  /** `s.strip()`. */
  function Strip(s: string): (r: string)
    ensures |r| <= |s|
    ensures r == [] || (!IsWhitespace(r[0]) && !IsWhitespace(r[|r| - 1]))
  {
    var b := StripBounds(s);
    s[b.0..b.1]
  }

  /** A string that neither starts nor ends with whitespace is left as it is. */
  lemma StripTrimmed(s: string)
    requires s == [] || (!IsWhitespace(s[0]) && !IsWhitespace(s[|s| - 1]))
    ensures Strip(s) == s
  {
  }

  /** `[origin.strip() for origin in ALLOWED_ORIGINS.split(",")]`. */
  function CorsOrigins(allowedOrigins: string): (origins: seq<string>)
    ensures |origins| == CommaCount(allowedOrigins) + 1
    ensures origins != []
    ensures forall i :: 0 <= i < |origins| ==> origins[i] == Strip(Split(allowedOrigins)[i])
    ensures forall i :: 0 <= i < |origins| ==>
              origins[i] == [] || (!IsWhitespace(origins[i][0]) && !IsWhitespace(origins[i][|origins[i]| - 1]))
  {
    var pieces := Split(allowedOrigins);
    seq(|pieces|, i requires 0 <= i < |pieces| => Strip(pieces[i]))
  }

  /** The default setting yields exactly the one local front-end origin. */
  lemma DefaultCorsOrigins()
    ensures CorsOrigins(DefaultAllowedOrigins) == [DefaultAllowedOrigins]
  {
    SingleOrigin(DefaultAllowedOrigins);
  }

  /** A comma-free value without surrounding whitespace is the one origin. */
  lemma SingleOrigin(s: string)
    requires ',' !in s
    requires s == [] || (!IsWhitespace(s[0]) && !IsWhitespace(s[|s| - 1]))
    ensures CorsOrigins(s) == [s]
  {
    SplitWithoutComma(s);
    StripTrimmed(s);
  }

  /** Adjacent commas, or a comma at either end, leave empty origins in place. */
  lemma EmptyPiecesKept(a: string, b: string)
    requires ',' !in a && ',' !in b
    ensures CorsOrigins(a + ",," + b) == [Strip(a), "", Strip(b)]
  {
    var s := a + ",," + b;
    SplitTwoCommas(a, b);
    var origins := CorsOrigins(s);
    assert Split(s) == [a, "", b];
    assert Strip("") == "";
    assert origins[0] == Strip(a) && origins[1] == "" && origins[2] == Strip(b);
  }

  lemma SplitTwoCommas(a: string, b: string)
    requires ',' !in a && ',' !in b
    ensures Split(a + ",," + b) == [a, "", b]
  {
    SplitWithoutComma(b);
    SplitCommaLed(b);
    SplitCommaLed("," + b);
    assert [','] + ("," + b) == ",," + b;
    SplitAfterPrefix(a, ",," + b);
    assert a + ",," + b == a + (",," + b);
    assert a + "" == a;
  }

  /** A leading comma splits off an empty piece. */
  lemma SplitCommaLed(rest: string)
    ensures Split([','] + rest) == [""] + Split(rest)
  {
    assert ([','] + rest)[1..] == rest;
  }

  /** Splitting a comma-free prefix followed by a comma-led rest. */
  lemma {:induction false} SplitAfterPrefix(a: string, rest: string)
    requires ',' !in a
    requires rest != [] && rest[0] == ','
    ensures Split(a + rest) == [a + Split(rest)[0]] + Split(rest)[1..]
  {
    if a == [] {
      assert a + rest == rest;
      assert Split(rest)[0] == "";
      assert Split(rest) == [Split(rest)[0]] + Split(rest)[1..];
    } else {
      assert (a + rest)[0] == a[0];
      assert (a + rest)[1..] == a[1..] + rest;
      SplitAfterPrefix(a[1..], rest);
      assert [a[0]] + (a[1..] + Split(rest)[0]) == a + Split(rest)[0];
    }
  }
}
