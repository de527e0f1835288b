/** The page URL the crawler requests for page n of a category
    (get_images_for_category): the category URL with a `page` query
    parameter appended, after '&' when the URL already has a query and after
    '?' otherwise. */
module PageLinks {

  function DigitChar(d: nat): (c: char)
    requires d < 10
    ensures '0' <= c <= '9' && (c as int) - ('0' as int) == d
  {
    "0123456789"[d]
  }

  predicate IsDigits(s: string) {
    forall i :: 0 <= i < |s| ==> '0' <= s[i] <= '9'
  }

  /** Python's str() of a non-negative int: its decimal digits. */
  function Decimal(n: nat): (s: string)
    decreases n
    ensures |s| > 0 && IsDigits(s)
  {
    if n < 10 then [DigitChar(n)] else Decimal(n / 10) + [DigitChar(n % 10)]
  }

  /** The number a string of decimal digits stands for. */
  function DecimalValue(s: string): nat
    requires IsDigits(s)
    decreases |s|
  {
    if s == [] then 0
    else
      var d := (s[|s| - 1] as int) - ('0' as int);
      assert 0 <= d;
      DecimalValue(s[..|s| - 1]) * 10 + d
  }

  /** Reading the digits back gives the number. */
  lemma {:induction false} DecimalRoundTrip(n: nat)
    ensures DecimalValue(Decimal(n)) == n
    decreases n
  {
    var s := Decimal(n);
    if n < 10 {
      assert s[..0] == [];
    } else {
      DecimalRoundTrip(n / 10);
      assert s[..|s| - 1] == Decimal(n / 10);
    }
  }

  function PageUrl(categoryUrl: string, page: nat): (u: string)
    ensures |u| > |categoryUrl| + 6 && u[..|categoryUrl|] == categoryUrl
  {
    if '?' in categoryUrl then categoryUrl + "&page=" + Decimal(page)
    else categoryUrl + "?page=" + Decimal(page)
  }

  /** The page URL extends the category URL by one separator, '&' exactly
      when the category URL already has a '?', then "page=" and the page
      number, which reads back from the end of the URL; the result always
      carries a query. */
  lemma PageUrlShape(categoryUrl: string, page: nat)
    ensures var u, n := PageUrl(categoryUrl, page), |categoryUrl|;
      && |u| > n + 5
      && u[..n] == categoryUrl
      && (u[n] == '&' <==> '?' in categoryUrl)
      && (u[n] == '?' <==> '?' !in categoryUrl)
      && u[n + 1..n + 6] == "page="
      && IsDigits(u[n + 6..])
      && DecimalValue(u[n + 6..]) == page
      && '?' in u
  {
    var u, n := PageUrl(categoryUrl, page), |categoryUrl|;
    var sep := if '?' in categoryUrl then "&page=" else "?page=";
    assert u == categoryUrl + sep + Decimal(page);
    assert u[n + 6..] == Decimal(page);
    assert u[n + 1..n + 6] == "page=";
    DecimalRoundTrip(page);
    if '?' in categoryUrl {
      var i :| 0 <= i < n && categoryUrl[i] == '?';
      assert u[i] == '?';
    } else {
      assert u[n] == '?';
    }
  }
}
