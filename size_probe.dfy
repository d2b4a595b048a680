/**
 * `get_file_size`: the size of the remote file, read from a HEAD reply's
 * Content-Length, or else from the total after the last '/' of the
 * Content-Range header of a GET for bytes 0-0; and the check `main` makes
 * of the result.
 */
module SizeProbe {
  import opened Common
  import opened Ports
  import opened ChunkPlan

  /**
   * What one `requests` call produces: an exception of its own (connection
   * error, timeout) or a reply with a status code and headers. Header names
   * are keys in lower case, as the case-insensitive lookups of `requests`
   * see them.
   */
  datatype Reply =
    | RequestFailed
    | Response(status: int, headers: map<string, string>)

  /**
   * `raise_for_status()` raises for client and server errors, status 400 to
   * 599: exactly the codes of the 4xx and 5xx classes. Informational,
   * success and redirect codes pass.
   */
  predicate RaisesForStatus(status: int)
    ensures RaisesForStatus(status) <==> status >= 0 && (status / 100 == 4 || status / 100 == 5)
    ensures 100 <= status < 400 ==> !RaisesForStatus(status)
  {
    400 <= status < 600
  }

  /** A call that returns without raising a `RequestException`. */
  predicate Succeeded(r: Reply)
  {
    r.Response? && !RaisesForStatus(r.status)
  }

  /**
   * The result of `get_file_size`: an integer, `None`, or the `ValueError`
   * that `int(...)` raises on text that is not an integer (the source does
   * not catch it, so it ends the run).
   */
  datatype SizeResult = Size(n: int) | NoSize | IntError(text: string)

  predicate IsDigit(c: char)
  {
    '0' <= c <= '9'
  }

  predicate AllDigits(s: string)
  {
    forall i :: 0 <= i < |s| ==> IsDigit(s[i])
  }

  /** The value of a string of decimal digits, most significant first. */
  function DigitsValue(s: string): nat
    requires AllDigits(s)
  {
    if s == [] then 0 else 10 * DigitsValue(s[..|s| - 1]) + (s[|s| - 1] as int - '0' as int)
  }

  /**
   * The model's `int(s)` on a string: an optional sign and at least one
   * ASCII decimal digit (Python also admits surrounding whitespace,
   * underscores and other Unicode digits). Any other character, or a sign
   * anywhere but in front, makes it fail; a string of digits reads as its decimal value; a negative value
   * comes only from a leading `-`.
   */
  function ParseInt(s: string): (r: Option<int>)
    ensures forall i :: 0 <= i < |s| && !IsDigit(s[i]) && !(i == 0 && (s[0] == '+' || s[0] == '-')) ==> r == None
    ensures |s| == 0 || s == "+" || s == "-" ==> r == None
    ensures |s| > 0 && AllDigits(s) ==> r == Some(DigitsValue(s) as int)
    ensures r.Some? && r.value < 0 ==> s[0] == '-'
  {
    if |s| > 0 && (s[0] == '+' || s[0] == '-') then
      if |s| > 1 && AllDigits(s[1..]) then
        Some(if s[0] == '-' then -(DigitsValue(s[1..]) as int) else DigitsValue(s[1..]))
      else None
    else if |s| > 0 && AllDigits(s) then Some(DigitsValue(s))
    else None
  }

  /** The shortest decimal numeral of `n`: how a server writes a length. */
  function Decimal(n: nat): (s: string)
    ensures |s| > 0 && AllDigits(s)
  {
    if n < 10 then [('0' as int + n) as char] else Decimal(n / 10) + [('0' as int + n % 10) as char]
  }

  /** Reading back a numeral gives the number it was written from. */
  lemma {:induction false} DigitsValueOfDecimal(n: nat)
    ensures DigitsValue(Decimal(n)) == n
  {
    if n >= 10 {
      var s := Decimal(n);
      assert s[..|s| - 1] == Decimal(n / 10);
      DigitsValueOfDecimal(n / 10);
    }
  }

  /** `int()` reads back a numeral and a negated numeral. */
  lemma ParseIntOfDecimal(n: nat)
    ensures ParseInt(Decimal(n)) == Some(n)
    ensures ParseInt("-" + Decimal(n)) == Some(-(n as int))
  {
    DigitsValueOfDecimal(n);
    var s := Decimal(n);
    assert ("-" + s)[1..] == s;
  }

  /** `s.split(sep)[-1]`: the text after the last `sep`, or all of `s` when it has none. */
  function LastField(s: string, sep: char): (r: string)
    ensures sep !in r
    ensures |r| <= |s| && r == s[|s| - |r|..]
    ensures |r| < |s| ==> s[|s| - |r| - 1] == sep
  {
    if |s| == 0 || s[|s| - 1] == sep then [] else LastField(s[..|s| - 1], sep) + [s[|s| - 1]]
  }

  /** Whatever precedes the last separator, the last field is what follows it. */
  lemma LastFieldAfterSeparator(prefix: string, sep: char, field: string)
    requires sep !in field
    ensures LastField(prefix + [sep] + field, sep) == field
  {
    var s := prefix + [sep] + field;
    assert s[|s| - |field| - 1] == sep;
    assert s[|s| - |field|..] == field;
  }

  /** `int(text)`, with the `ValueError` as a result of its own. */
  function IntOf(text: string): SizeResult
  {
    match ParseInt(text)
    case Some(n) => Size(n)
    case None => IntError(text)
  }

  /**
   * The decision `get_file_size` makes from the HEAD reply and, when the
   * HEAD raised, the reply to the GET for `bytes=0-0`. A HEAD that succeeds
   * never gives `None`; after a HEAD that raised, the result is `None`
   * exactly when the GET raised too or has no non-empty Content-Range; a
   * `ValueError` carries the header text it came from.
   */
  function ResolveSize(head: Reply, get: Reply): (r: SizeResult)
    ensures Succeeded(head) ==> !r.NoSize?
    ensures !Succeeded(head) ==>
      (r.NoSize? <==> !Succeeded(get) || "content-range" !in get.headers || get.headers["content-range"] == "")
    ensures r.IntError? && Succeeded(head) ==>
      "content-length" in head.headers && r.text == head.headers["content-length"]
    ensures r.IntError? && !Succeeded(head) ==>
      Succeeded(get) && "content-range" in get.headers && r.text == LastField(get.headers["content-range"], '/')
  {
    if Succeeded(head) then
      if "content-length" in head.headers then IntOf(head.headers["content-length"]) else Size(0)
    else if Succeeded(get) then
      if "content-range" in get.headers && get.headers["content-range"] != "" then
        IntOf(LastField(get.headers["content-range"], '/'))
      else NoSize
    else NoSize
  }

  /**
   * `main` goes on only with a positive integer: it rejects `None`, 0 and
   * negative sizes. A usable size has at least one chunk.
   */
  predicate UsableSize(r: SizeResult)
    ensures UsableSize(r) ==> r.Size? && NumChunks(r.n) > 0
    ensures r.NoSize? || r.IntError? || (r.Size? && r.n <= 0) ==> !UsableSize(r)
  {
    r.Size? && r.n > 0
  }

  /** A HEAD that succeeds decides the result alone; without Content-Length the size is 0, which `main` rejects. */
  lemma HeadDecides(head: Reply, get: Reply, n: nat)
    requires Succeeded(head)
    ensures "content-length" !in head.headers ==> ResolveSize(head, get) == Size(0) && !UsableSize(ResolveSize(head, get))
    ensures "content-length" in head.headers && head.headers["content-length"] == Decimal(n) ==> ResolveSize(head, get) == Size(n)
    ensures forall get' :: ResolveSize(head, get') == ResolveSize(head, get)
  {
    ParseIntOfDecimal(n);
  }

  /** When the HEAD raises, a Content-Range `bytes 0-0/<total>` gives `<total>`, whatever precedes the last '/'. */
  lemma FallbackReadsTotal(head: Reply, get: Reply, prefix: string, total: nat)
    requires !Succeeded(head) && Succeeded(get)
    requires "content-range" in get.headers && get.headers["content-range"] == prefix + "/" + Decimal(total)
    ensures ResolveSize(head, get) == Size(total)
  {
    assert '/' !in Decimal(total);
    LastFieldAfterSeparator(prefix, '/', Decimal(total));
    assert prefix + "/" + Decimal(total) == prefix + ['/'] + Decimal(total);
    ParseIntOfDecimal(total);
  }

  /**
   * `get_file_size` with its lease: it takes a port and gives it back before
   * making either request (the requests then go through the port it has
   * already returned), so the pool's flags end as they began.
   */
  method GetFileSize(pm: PortManager, head: Reply, get: Reply) returns (r: SizeResult)
    requires pm.Valid() && false in pm.Flags()
    modifies pm.ports
    ensures r == ResolveSize(head, get)
    ensures pm.Flags() == old(pm.Flags())
  {
    var port := pm.GetPort();
    pm.ReturnPort(port);
    r := ResolveSize(head, get);
  }
}
