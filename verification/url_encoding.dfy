/** Python's `urllib.parse.urlencode` with its default `quote_plus`: every key
    and value is UTF-8 encoded, letters, digits and `_.-~` are kept, a space
    becomes `+`, every other byte becomes `%XX`; pairs are joined `k=v` by `&`. */
module UrlEncoding {
  import opened Text
  import opened OrderedDict

  predicate IsUnreserved(c: char) {
    ('A' <= c <= 'Z') || ('a' <= c <= 'z') || ('0' <= c <= '9') || c == '_' || c == '.' || c == '-' || c == '~'
  }

  function HexDigit(d: nat): (c: char)
    requires d < 16
    ensures IsUnreserved(c)
  {
    if d < 10 then DigitChar(d) else ('A' as int + d - 10) as char
  }

  /** The UTF-8 encoding of one code point. */
  function Utf8(c: char): (bytes: seq<nat>)
    ensures 1 <= |bytes| <= 4
    ensures forall i :: 0 <= i < |bytes| ==> bytes[i] < 256
  {
    var n := c as int;
    if n < 0x80 then [n]
    else if n < 0x800 then [0xC0 + n / 64, 0x80 + n % 64]
    else if n < 0x10000 then [0xE0 + n / 4096, 0x80 + (n / 64) % 64, 0x80 + n % 64]
    else [0xF0 + n / 262144, 0x80 + (n / 4096) % 64, 0x80 + (n / 64) % 64, 0x80 + n % 64]
  }

  function PercentEncode(bytes: seq<nat>): string
    requires forall i :: 0 <= i < |bytes| ==> bytes[i] < 256
  {
    if |bytes| == 0 then ""
    else ['%', HexDigit(bytes[0] / 16), HexDigit(bytes[0] % 16)] + PercentEncode(bytes[1..])
  }

  function QuoteChar(c: char): string {
    if IsUnreserved(c) then [c] else if c == ' ' then "+" else PercentEncode(Utf8(c))
  }

  /** `quote_plus(s)`: every character at least one output character, and
      the output holds only letters, digits, `_.-~`, `+` and `%`. */
  function QuotePlus(s: string): (q: string)
    ensures |q| >= |s|
    ensures forall i :: 0 <= i < |q| ==> IsEncodedChar(q[i])
    decreases |s|
  {
    if |s| == 0 then ""
    else
      var c := s[0];
      if IsUnreserved(c) || c == ' ' then QuoteChar(c) + QuotePlus(s[1..])
      else
        PercentEncodeAlphabet(Utf8(c));
        QuoteChar(c) + QuotePlus(s[1..])
  }

  function EncodePair(item: Item): string {
    QuotePlus(item.0) + "=" + QuotePlus(item.1)
  }

  function EncodedPairs(params: seq<Item>): (pairs: seq<string>)
    ensures |pairs| == |params|
    ensures forall i :: 0 <= i < |params| ==> pairs[i] == EncodePair(params[i])
  {
    seq(|params|, i requires 0 <= i < |params| => EncodePair(params[i]))
  }

  /** `urlencode(params)`: a non-empty query string splits at `&` into one
      encoded pair per parameter, in order. */
  function UrlEncode(params: seq<Item>): (u: string)
    ensures |params| >= 1 ==> Split(u, '&') == EncodedPairs(params)
  {
    JoinedPairsSplit(params);
    Join(EncodedPairs(params), "&")
  }

  lemma JoinedPairsSplit(params: seq<Item>)
    ensures |params| >= 1 ==> Split(Join(EncodedPairs(params), "&"), '&') == EncodedPairs(params)
  {
    if |params| >= 1 {
      forall i | 0 <= i < |params|
        ensures '&' !in EncodedPairs(params)[i]
      {
        EncodedPairSplits(params[i]);
      }
      SplitJoin(EncodedPairs(params), '&');
    }
  }

  /** The characters an encoded component can contain. */
  predicate IsEncodedChar(c: char) {
    IsUnreserved(c) || c == '+' || c == '%'
  }

  lemma {:induction false} PercentEncodeAlphabet(bytes: seq<nat>)
    requires forall i :: 0 <= i < |bytes| ==> bytes[i] < 256
    ensures forall i :: 0 <= i < |PercentEncode(bytes)| ==> IsEncodedChar(PercentEncode(bytes)[i])
    decreases |bytes|
  {
    if |bytes| > 0 {
      PercentEncodeAlphabet(bytes[1..]);
    }
  }

  /** An encoded pair splits at its one `=` back into the quoted key and value. */
  lemma EncodedPairSplits(item: Item)
    ensures '&' !in EncodePair(item)
    ensures Split(EncodePair(item), '=') == [QuotePlus(item.0), QuotePlus(item.1)]
  {
    var key, value := QuotePlus(item.0), QuotePlus(item.1);
    QuotedHasNoSeparator(item.0);
    QuotedHasNoSeparator(item.1);
    assert EncodePair(item) == key + ['='] + value;
    SplitAtFirstSeparator(key, value, '=');
    SplitWithoutSeparator(value, '=');
  }

  /** A quoted component never holds the separators of a query string. */
  lemma QuotedHasNoSeparator(s: string)
    ensures '=' !in QuotePlus(s) && '&' !in QuotePlus(s)
  {
    var q := QuotePlus(s);
    forall i | 0 <= i < |q|
      ensures q[i] != '=' && q[i] != '&'
    {
      assert IsEncodedChar(q[i]);
    }
  }

  /** A non-empty query string splits at `&` into exactly one encoded pair per
      parameter, in order, and each pair at `=` into its quoted key and value:
      no key or value can break the query string apart. */
  lemma UrlEncodeSplits(params: seq<Item>)
    requires |params| >= 1
    ensures Split(UrlEncode(params), '&') == EncodedPairs(params)
    ensures forall i :: 0 <= i < |params| ==>
              Split(Split(UrlEncode(params), '&')[i], '=') == [QuotePlus(params[i].0), QuotePlus(params[i].1)]
  {
    forall i | 0 <= i < |params|
      ensures Split(EncodedPairs(params)[i], '=') == [QuotePlus(params[i].0), QuotePlus(params[i].1)]
    {
      EncodedPairSplits(params[i]);
    }
  }
}
