/**
 * The SteamID conversions of src/main.rs: `steamid_32_to_64`,
 * `steamid_64_to_32` and `normalize_steamid`. A Steam32 id is written
 * `[U:1:N]`; its Steam64 form is the decimal text of `N + 76561197960265728`.
 */
module SteamId {
  import opened Wrappers
  import opened Types
  import opened Decimal

  /** The Steam64 id of account 0. */
  const STEAM64_BASE: nat := 76561197960265728

  const STEAM32_PREFIX: string := "[U:1:"

  /** `str::trim_end_matches("]")`: every trailing `]` removed. */
  function TrimEndBrackets(s: string): (t: string)
    ensures t <= s
    ensures t == [] || t[|t| - 1] != ']'
    ensures forall i :: |t| <= i < |s| ==> s[i] == ']'
  {
    if s != [] && s[|s| - 1] == ']' then TrimEndBrackets(s[..|s| - 1]) else s
  }

  /** The pieces of `str::split(sep)`, joined back with `sep`. */
  function Join(parts: seq<string>, sep: char): string
  {
    if parts == [] then []
    else if |parts| == 1 then parts[0]
    else parts[0] + [sep] + Join(parts[1..], sep)
  }

  /** The position of the first `c` in `s`. */
  function IndexOf(s: string, c: char): (i: nat)
    requires c in s
    ensures i < |s| && s[i] == c && c !in s[..i]
  {
    if s[0] == c then 0 else 1 + IndexOf(s[1..], c)
  }

  /** `str::split(sep)`: the text between separators; an empty string gives one empty piece. */
  function Split(s: string, sep: char): (parts: seq<string>)
    ensures |parts| >= 1
    decreases |s|
  {
    if sep !in s then [s]
    else
      var i := IndexOf(s, sep);
      [s[..i]] + Split(s[i + 1..], sep)
  }

  /** Splitting loses nothing and leaves no separator inside a piece. */
  lemma {:induction false} SplitJoin(s: string, sep: char)
    ensures Join(Split(s, sep), sep) == s
    ensures forall k :: 0 <= k < |Split(s, sep)| ==> sep !in Split(s, sep)[k]
    decreases |s|
  {
    if sep in s {
      var i := IndexOf(s, sep);
      var rest := Split(s[i + 1..], sep);
      SplitJoin(s[i + 1..], sep);
      assert Split(s, sep) == [s[..i]] + rest;
      assert ([s[..i]] + rest)[1..] == rest;
      assert s == s[..i] + [sep] + s[i + 1..];
      forall k | 0 <= k < |Split(s, sep)|
        ensures sep !in Split(s, sep)[k]
      {
        if k > 0 {
          assert Split(s, sep)[k] == rest[k - 1];
        }
      }
    }
  }

  /** The text after an optional leading `+`. */
  function Unsigned(s: string): string
  {
    if |s| > 0 && s[0] == '+' then s[1..] else s
  }

  /** `str::parse::<u64>`: an optional `+`, then at least one digit, denoting less than 2^64. */
  function ParseU64(s: string): Option<u64>
  {
    var digits := Unsigned(s);
    if |digits| >= 1 && AllDigits(digits) && Value(digits) < U64_LIMIT then Some(Value(digits)) else None
  }

  /** Printing a `u64` and parsing it back gives the number. */
  lemma ParseShow(n: u64)
    ensures ParseU64(Show(n)) == Some(n)
  {
    ValueShow(n);
  }

  /** A canonical decimal that parses is the printed form of its value. */
  lemma ParseCanonical(s: string)
    requires Canonical(s) && ParseU64(s).Some?
    ensures Show(ParseU64(s).value) == s
  {
    ShowValue(s);
  }

  /** `steamid_32_to_64`: the third `:`-piece after trailing `]`s, parsed, plus the base (wrapping at 2^64). */
  function Steam32To64(steamid32: string): Option<string>
  {
    var segments := Split(TrimEndBrackets(steamid32), ':');
    if |segments| < 3 then None
    else
      match ParseU64(segments[2])
      case None => None
      case Some(id32) => Some(Show((id32 + STEAM64_BASE) % U64_LIMIT))
  }

  /** `steamid_64_to_32`: a parsed id above the base, written `[U:1:id - base]`. */
  function Steam64To32(steamid64: string): (r: Option<string>)
  {
    match ParseU64(steamid64)
    case Some(id64) =>
      if id64 > STEAM64_BASE then Some(STEAM32_PREFIX + Show(id64 - STEAM64_BASE) + "]") else None
    case None => None
  }

  /** `sub` occurs in `s` at position `i`. */
  predicate OccursAt(s: string, sub: string, i: int)
  {
    0 <= i <= |s| - |sub| && s[i..i + |sub|] == sub
  }

  /** `str::contains` on a substring. */
  predicate Contains(s: string, sub: string)
  {
    exists i | 0 <= i <= |s| - |sub| :: OccursAt(s, sub, i)
  }

  /**
   * `normalize_steamid`: a `[U:1:` input is paired with its Steam64 form; an
   * all-digit input of at least 16 characters is paired with its Steam32 form;
   * anything else, or a failed conversion, gives `None`.
   */
  function Normalize(input: string): Option<(string, string)>
  {
    if Contains(input, STEAM32_PREFIX) then
      match Steam32To64(input)
      case Some(id64) => Some((input, id64))
      case None => None
    else if AllDigits(input) && |input| >= 16 then
      match Steam64To32(input)
      case Some(id32) => Some((id32, input))
      case None => None
    else None
  }

  /** A piece free of the separator, then the separator, splits off as the first piece. */
  lemma SplitFirst(s: string, t: string, sep: char)
    requires sep !in s
    ensures Split(s + [sep] + t, sep) == [s] + Split(t, sep)
  {
    var u := s + [sep] + t;
    assert u[|s|] == sep;
    assert u[..|s|] == s;
    assert IndexOf(u, sep) == |s|;
    assert u[|s| + 1..] == t;
  }

  /** The trailing `]` of `[U:1:N]` is trimmed and nothing else. */
  lemma TrimSteam32(digits: string)
    requires Canonical(digits)
    ensures TrimEndBrackets(STEAM32_PREFIX + digits + "]") == STEAM32_PREFIX + digits
  {
    var t := STEAM32_PREFIX + digits;
    assert (t + "]")[..|t + "]"| - 1] == t;
    assert t[|t| - 1] == digits[|digits| - 1];
  }

  /** `[U:1:N` splits at `:` into `[U`, `1` and the account number. */
  lemma SplitSteam32(digits: string)
    requires Canonical(digits)
    ensures Split(STEAM32_PREFIX + digits, ':') == ["[U", "1", digits]
  {
    assert ':' !in digits;
    assert STEAM32_PREFIX + digits == "[U" + [':'] + ("1" + [':'] + digits);
    SplitFirst("[U", "1" + [':'] + digits, ':');
    SplitFirst("1", digits, ':');
  }

  /** `steamid_32_to_64` on a text whose third piece parses. */
  lemma Steam32To64Piece(s: string, id: u64)
    requires |Split(TrimEndBrackets(s), ':')| >= 3
    requires ParseU64(Split(TrimEndBrackets(s), ':')[2]) == Some(id)
    ensures Steam32To64(s) == Some(Show((id + STEAM64_BASE) % U64_LIMIT))
  {
  }

  /** `[U:1:N]` converts to the decimal text of N + base, when that fits in a `u64`. */
  lemma Steam32Of(n: nat)
    requires n + STEAM64_BASE < U64_LIMIT
    ensures Steam32To64(STEAM32_PREFIX + Show(n) + "]") == Some(Show(n + STEAM64_BASE))
  {
    var digits := Show(n);
    TrimSteam32(digits);
    SplitSteam32(digits);
    ParseShow(n);
    Steam32To64Piece(STEAM32_PREFIX + digits + "]", n);
    WrapBelow(n + STEAM64_BASE);
  }

  lemma WrapBelow(x: int)
    requires 0 <= x < U64_LIMIT
    ensures x % U64_LIMIT == x
  {
  }

  /**
   * Steam32 to Steam64 and back: for an account number 0 < N whose Steam64
   * id fits in a `u64`, `[U:1:N]` converts to the decimal text of N + base,
   * and that converts back to `[U:1:N]`.
   */
  lemma RoundTrip32(n: nat)
    requires 0 < n && n + STEAM64_BASE < U64_LIMIT
    ensures Steam32To64(STEAM32_PREFIX + Show(n) + "]") == Some(Show(n + STEAM64_BASE))
    ensures Steam64To32(Show(n + STEAM64_BASE)) == Some(STEAM32_PREFIX + Show(n) + "]")
  {
    Steam32Of(n);
    ParseShow(n + STEAM64_BASE);
  }

  /** `steamid_64_to_32` refuses every id up to the base. */
  lemma AtMostBaseRefused(s: string)
    requires ParseU64(s).Some? && ParseU64(s).value <= STEAM64_BASE
    ensures Steam64To32(s) == None
  {
  }

  /** Account 0 converts to the base itself, which `steamid_64_to_32` refuses: `[U:1:0]` does not round-trip. */
  lemma ZeroDoesNotRoundTrip(n: nat)
    requires n == 0
    ensures Steam32To64(STEAM32_PREFIX + Show(n) + "]") == Some(Show(n + STEAM64_BASE))
    ensures Steam64To32(Show(n + STEAM64_BASE)) == None
  {
    Steam32Of(n);
    ParseShow(n + STEAM64_BASE);
  }

  /** Steam64 to Steam32 and back: a canonical Steam64 id that converts returns to itself. */
  lemma RoundTrip64(s: string)
    requires Canonical(s) && Steam64To32(s).Some?
    ensures Steam32To64(Steam64To32(s).value) == Some(s)
  {
    var id := ParseU64(s).value;
    ParseCanonical(s);
    RoundTrip32(id - STEAM64_BASE);
  }

  /**
   * `normalize_steamid` gives a Steam32 form (it contains `[U:1:`) and an
   * all-digit Steam64 form, and the first converts to the second whenever the
   * second is canonical (an input with a leading zero stays as given).
   */
  lemma NormalizePair(input: string)
    requires Normalize(input).Some?
    ensures var (id32, id64) := Normalize(input).value;
      && Contains(id32, STEAM32_PREFIX)
      && AllDigits(id64)
      && (Canonical(id64) ==> Steam32To64(id32) == Some(id64))
  {
    var (id32, id64) := Normalize(input).value;
    if !Contains(input, STEAM32_PREFIX) {
      assert id32 == STEAM32_PREFIX + Show(ParseU64(input).value - STEAM64_BASE) + "]";
      assert OccursAt(id32, STEAM32_PREFIX, 0);
      if Canonical(id64) {
        RoundTrip64(input);
      }
    }
  }
}
