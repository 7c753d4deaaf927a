/** The named country codes of structs.go (type CountryCode int and its constants). */
module Countries {
  import opened Results

  /** Go's `type CountryCode int`: any integer is a country code; nine have names. */
  type CountryCode = int

  datatype Country = NL | DE | BE | AT | CH | LU | PL | PT | VN

  /** The numeric code the vendor uses for each named country. */
  function Code(c: Country): (n: CountryCode)
    ensures 1 <= n <= 239
  {
    match c
    case NL => 1
    case DE => 2
    case BE => 3
    case AT => 5
    case CH => 6
    case LU => 10
    case PL => 180
    case PT => 181
    case VN => 239
  }

  /** Reference inverse of Code: the named country a numeric code stands for, if any. */
  function CountryOf(n: CountryCode): (r: Option<Country>)
    ensures r.Some? ==> Code(r.value) == n
  {
    if n == 1 then Some(NL)
    else if n == 2 then Some(DE)
    else if n == 3 then Some(BE)
    else if n == 5 then Some(AT)
    else if n == 6 then Some(CH)
    else if n == 10 then Some(LU)
    else if n == 180 then Some(PL)
    else if n == 181 then Some(PT)
    else if n == 239 then Some(VN)
    else None
  }

  /** Every named country is recovered from its code, so the nine codes are pairwise distinct. */
  lemma CodeRoundTrip(c: Country)
    ensures CountryOf(Code(c)) == Some(c)
  {
  }

  lemma CodesDistinct(a: Country, b: Country)
    requires Code(a) == Code(b)
    ensures a == b
  {
    CodeRoundTrip(a);
    CodeRoundTrip(b);
  }
}
