/**
 * Token helpers of lib/memecore/utils.ts: deriving a ticker symbol from a
 * wiki title, the default token description, whole-token supply, and the
 * address check and shortening used for display.
 */
module MemecoreUtils {
  import opened Strings
  import JsMath

  /** The characters the regular expression `[^A-Z0-9]` keeps. */
  predicate IsSymbolChar(c: char) { IsAsciiUpper(c) || IsDigit(c) }

  predicate AllSymbolChars(s: string) {
    forall i :: 0 <= i < |s| ==> IsSymbolChar(s[i])
  }

  /** `.replace(/[^A-Z0-9]/g, '')`: the characters of `s` in A-Z or 0-9, in order. */
  function KeepSymbolChars(s: string): (r: string)
    ensures AllSymbolChars(r)
    ensures |r| <= |s|
    ensures AllSymbolChars(s) ==> r == s
    ensures r == [] <==> forall i :: 0 <= i < |s| ==> !IsSymbolChar(s[i])
    ensures r != [] ==> exists i :: 0 <= i < |s| && s[i] == r[0]
  {
    if s == [] then []
    else if IsSymbolChar(s[0]) then [s[0]] + KeepSymbolChars(s[1..])
    else KeepSymbolChars(s[1..])
  }

  /**
   * The letters and digits of the upper-cased title. `.trim()` follows the
   * filter in the source; a string of A-Z and 0-9 has no whitespace to trim.
   */
  function SymbolChars(title: string): string {
    KeepSymbolChars(ToUpper(title))
  }

  /**
   * `sanitizeTokenSymbol`: upper-case, keep A-Z and 0-9, put "M" before a
   * leading digit, fall back to "MEME" when nothing is left, and keep at most
   * six characters.
   */
  function SanitizeTokenSymbol(title: string): (r: string)
    ensures 1 <= |r| <= 6
    ensures AllSymbolChars(r)
    ensures !IsDigit(r[0])
    ensures SymbolChars(title) == [] ==> r == "MEME"
    ensures var k := SymbolChars(title);
      k != [] && IsDigit(k[0]) ==> r[0] == 'M' && r[1..] == k[..if |k| < 5 then |k| else 5]
    ensures var k := SymbolChars(title);
      k != [] && !IsDigit(k[0]) ==> r == k[..if |k| < 6 then |k| else 6]
  {
    var k := SymbolChars(title);
    var symbol := Candidate(k);
    var r := Substring(symbol, 0, 6);
    assert r == symbol[..if |symbol| < 6 then |symbol| else 6];
    assert k != [] && IsDigit(k[0]) ==> r[1..] == k[..if |k| < 5 then |k| else 5];
    r
  }

  /** The symbol before truncation: "M" before a leading digit, "MEME" for nothing. */
  function Candidate(k: string): (c: string)
    requires AllSymbolChars(k)
    ensures |c| >= 1 && AllSymbolChars(c) && !IsDigit(c[0])
    ensures k == [] ==> c == "MEME"
    ensures k != [] && IsDigit(k[0]) ==> c == "M" + k
    ensures k != [] && !IsDigit(k[0]) ==> c == k
  {
    var symbol := if |k| > 0 && IsDigit(k[0]) then "M" + k else k;
    if |symbol| == 0 then "MEME" else symbol
  }

  /** Upper-casing leaves A-Z and 0-9 alone. */
  lemma UpperKeepsSymbolChars(s: string)
    requires AllSymbolChars(s)
    ensures ToUpper(s) == s
  {
    assert forall i :: 0 <= i < |s| ==> ToUpper(s)[i] == s[i];
  }

  /** A title with no ASCII letter or digit always gets the ticker "MEME". */
  lemma NoLettersGiveMeme(title: string)
    requires forall i :: 0 <= i < |title| ==> !IsSymbolChar(UpperChar(title[i]))
    ensures SanitizeTokenSymbol(title) == "MEME"
  {
    var u := ToUpper(title);
    assert forall i :: 0 <= i < |u| ==> !IsSymbolChar(u[i]);
  }

  /** Sanitising a symbol that was already sanitised returns it unchanged. */
  lemma SanitizeIdempotent(title: string)
    ensures SanitizeTokenSymbol(SanitizeTokenSymbol(title)) == SanitizeTokenSymbol(title)
  {
    var s := SanitizeTokenSymbol(title);
    UpperKeepsSymbolChars(s);
    assert SymbolChars(s) == s;
  }

  /** `generateTokenDescription`: the title, then the category, in a fixed sentence. */
  function GenerateTokenDescription(title: string, category: string): (r: string)
    ensures StartsWith(r, title + " - A memecoin from the ")
    ensures EndsWith(r, category + " category on Memekipedia")
    ensures |r| == |title| + |category| + |" - A memecoin from the  category on Memekipedia"|
  {
    title + " - A memecoin from the " + category + " category on Memekipedia"
  }

  function Pow10(n: nat): (r: nat)
    ensures r >= 1
  {
    if n == 0 then 1 else 10 * Pow10(n - 1)
  }

  /**
   * The whole-token part of `formatTokenSupply` before locale formatting:
   * BigInt division by `10 ** decimals`, truncated toward zero. The divisor
   * is computed as a double in the source, which is exact only up to 10^22.
   */
  function WholeTokens(supply: int, decimals: nat): (whole: int)
    requires decimals <= 22
    ensures supply >= 0 ==> 0 <= whole && whole * Pow10(decimals) <= supply < whole * Pow10(decimals) + Pow10(decimals)
    ensures supply < 0 ==> whole <= 0 && whole * Pow10(decimals) - Pow10(decimals) < supply <= whole * Pow10(decimals)
  {
    JsMath.TruncDiv(supply, Pow10(decimals))
  }

  lemma QuotientOfMultiple(t: int, p: int, w: int)
    requires p > 0 && w * p <= t * p < w * p + p
    ensures w == t
  {
    if w < t {
      assert t * p - w * p == (t - w) * p;
      MultipleAtLeast(t - w, p);
    } else if w > t {
      assert w * p - t * p == (w - t) * p;
      MultipleAtLeast(w - t, p);
    }
  }

  lemma MultipleAtLeast(k: int, p: int)
    requires k >= 1 && p > 0
    ensures k * p >= p
  {
    assert k * p == (k - 1) * p + p;
  }

  /** Whole tokens are exact for supplies that are whole multiples of a token. */
  lemma WholeTokensOfMultiple(tokens: nat, decimals: nat)
    requires decimals <= 22
    ensures WholeTokens(tokens * Pow10(decimals), decimals) == tokens
  {
    TruncDivOfMultiple(tokens, Pow10(decimals));
  }

  lemma TruncDivOfMultiple(t: nat, p: int)
    requires p > 0
    ensures JsMath.TruncDiv(t * p, p) == t
  {
    var w := JsMath.TruncDiv(t * p, p);
    assert w * p <= t * p < w * p + p;
    QuotientOfMultiple(t, p, w);
  }

  /** `isValidAddress`: `/^0x[a-fA-F0-9]{40}$/`, with no EIP-55 checksum test. */
  predicate IsValidAddress(address: string): (valid: bool)
    ensures valid <==>
      && |address| >= 2 && address[..2] == "0x" && |address[2..]| == 40
      && forall c :: c in address[2..] ==> IsHexDigit(c)
  {
    && |address| == 42
    && address[0] == '0' && address[1] == 'x'
    && forall i :: 2 <= i < 42 ==> IsHexDigit(address[i])
  }

  /** Changing the case of the hex digits never changes validity: no checksum is checked. */
  lemma ValidityIgnoresHexCase(address: string)
    requires IsValidAddress(address)
    ensures IsValidAddress(ToLower(address))
    ensures IsValidAddress(address[..2] + ToUpper(address[2..]))
  {
    var up := address[..2] + ToUpper(address[2..]);
    assert forall i :: 2 <= i < 42 ==> up[i] == UpperChar(address[i]);
  }

  /**
   * `truncateAddress`: an invalid address comes back unchanged; a valid one
   * keeps its first `chars + 2` and last `chars` characters around "...".
   */
  function TruncateAddress(address: string, chars: int): (r: string)
    ensures !IsValidAddress(address) ==> r == address
    ensures IsValidAddress(address) && 0 <= chars <= 40 ==>
      r == address[..chars + 2] + "..." + address[42 - chars..] && |r| == 2 * chars + 5
  {
    if !IsValidAddress(address) then address
    else Substring(address, 0, chars + 2) + "..." + SubstringFrom(address, 42 - chars)
  }

  /** With the default of four characters a valid address shows as 0x + 4, "...", 4. */
  lemma TruncateDefault(address: string)
    requires IsValidAddress(address)
    ensures TruncateAddress(address, 4) == address[..6] + "..." + address[38..]
    ensures |TruncateAddress(address, 4)| == 13
  {
  }
}
