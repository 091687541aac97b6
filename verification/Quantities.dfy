/** Resource quantity strings: how the operator reads a limit, derives the
    request from it and prints the request, and how the API normalises what a
    client sent. */
module Quantities {
  import opened Wrappers

  // ---------------------------------------------------------------------
  // Decimal strings
  // ---------------------------------------------------------------------

  predicate IsDigit(c: char) {
    '0' <= c <= '9'
  }

  predicate AllDigits(s: string) {
    forall c | c in s :: IsDigit(c)
  }

  function Value(s: string): nat
    requires AllDigits(s)
  {
    if s == [] then 0
    else
      assert IsDigit(s[|s| - 1]);
      Value(s[..|s| - 1]) * 10 + (s[|s| - 1] as int - '0' as int)
  }

  function DigitChar(d: nat): char
    requires d < 10
  {
    ('0' as int + d) as char
  }

  /** What `format!("{}", n)` prints. */
  function Print(n: nat): string {
    if n < 10 then [DigitChar(n)] else Print(n / 10) + [DigitChar(n % 10)]
  }

  /** `str::parse::<u64>`: an optional plus sign, then digits only, in range. */
  function ParseU64(s: string): Option<u64> {
    var body := if |s| > 0 && s[0] == '+' then s[1..] else s;
    if body != [] && AllDigits(body) && Value(body) < TWO64 then Some(Value(body)) else None
  }

  lemma {:induction false} PrintIsDecimal(n: nat)
    ensures Print(n) != [] && AllDigits(Print(n)) && Value(Print(n)) == n
  {
    if n >= 10 {
      PrintIsDecimal(n / 10);
      assert Print(n)[..|Print(n)| - 1] == Print(n / 10);
    } else {
      assert Print(n)[..0] == [];
    }
  }

  lemma ParsePrint(n: nat)
    ensures ParseU64(Print(n)) == if n < TWO64 then Some(n) else None
  {
    PrintIsDecimal(n);
    assert IsDigit(Print(n)[0]);
  }

  // ---------------------------------------------------------------------
  // Suffixes
  // ---------------------------------------------------------------------

  predicate EndsWith(s: string, suffix: string) {
    |s| >= |suffix| && s[|s| - |suffix|..] == suffix
  }

  function StripSuffix(s: string, suffix: string): (r: Option<string>)
    ensures r.Some? <==> EndsWith(s, suffix)
    ensures r.Some? ==> s == r.value + suffix
  {
    if EndsWith(s, suffix) then Some(s[..|s| - |suffix|]) else None
  }

  lemma SuffixByLastChars(s: string)
    ensures EndsWith(s, "m") <==> |s| >= 1 && s[|s| - 1] == 'm'
    ensures EndsWith(s, "G") <==> |s| >= 1 && s[|s| - 1] == 'G'
    ensures EndsWith(s, "M") <==> |s| >= 1 && s[|s| - 1] == 'M'
    ensures EndsWith(s, "Gi") <==> |s| >= 2 && s[|s| - 2] == 'G' && s[|s| - 1] == 'i'
    ensures EndsWith(s, "Mi") <==> |s| >= 2 && s[|s| - 2] == 'M' && s[|s| - 1] == 'i'
  {
    if |s| >= 1 {
      assert s[|s| - 1..] == [s[|s| - 1]];
    }
    if |s| >= 2 {
      assert s[|s| - 2..] == [s[|s| - 2], s[|s| - 1]];
    }
  }

  lemma StripAppended(v: string, suffix: string)
    ensures StripSuffix(v + suffix, suffix) == Some(v)
  {
    assert (v + suffix)[|v|..] == suffix;
    assert (v + suffix)[..|v|] == v;
  }

  // ---------------------------------------------------------------------
  // Reading limits
  // ---------------------------------------------------------------------

  /** `floatMillis` stands for the floating-point branch, `(v * 1000.0) as u64`
      on the strings `f64` accepts; the saturating cast keeps it in range. */
  function ParseCpuMillis(floatMillis: string -> Option<u64>, s: string): u64 {
    match StripSuffix(s, "m")
    case Some(m) => ParseU64(m).GetOr(1000)
    case None => floatMillis(s).GetOr(1000)
  }

  /** A release build wraps the multiplication at 64 bits. */
  function GibToMib(v: string): u64 {
    (ParseU64(v).GetOr(2) * 1024) % TWO64
  }

  function ParseMemoryMi(s: string): u64 {
    match StripSuffix(s, "Gi")
    case Some(v) => GibToMib(v)
    case None =>
      match StripSuffix(s, "Mi")
      case Some(v) => ParseU64(v).GetOr(512)
      case None =>
        match StripSuffix(s, "G")
        case Some(v) => GibToMib(v)
        case None =>
          match StripSuffix(s, "M")
          case Some(v) => ParseU64(v).GetOr(512)
          case None => 512
  }

  // ---------------------------------------------------------------------
  // Requests are a quarter of limits
  // ---------------------------------------------------------------------

  function CpuRequest(floatMillis: string -> Option<u64>, limit: string): string {
    Print(ParseCpuMillis(floatMillis, limit) / 4) + "m"
  }

  function MemoryRequest(limit: string): string {
    Print(ParseMemoryMi(limit) / 4) + "Mi"
  }

  lemma ReadMillis(floatMillis: string -> Option<u64>, n: nat)
    ensures ParseCpuMillis(floatMillis, Print(n) + "m") == if n < TWO64 then n else 1000
  {
    StripAppended(Print(n), "m");
    ParsePrint(n);
  }

  /** Which numeral and unit each spelling of a memory limit stands for. */
  lemma ReadMemory(v: string)
    ensures ParseMemoryMi(v + "Gi") == GibToMib(v)
    ensures ParseMemoryMi(v + "G") == GibToMib(v)
    ensures ParseMemoryMi(v + "Mi") == ParseU64(v).GetOr(512)
    ensures ParseMemoryMi(v + "M") == ParseU64(v).GetOr(512)
  {
    SuffixByLastChars(v + "Gi");
    SuffixByLastChars(v + "G");
    SuffixByLastChars(v + "Mi");
    SuffixByLastChars(v + "M");
    StripAppended(v, "Gi");
    StripAppended(v, "G");
    StripAppended(v, "Mi");
    StripAppended(v, "M");
  }

  lemma ReadMebibytes(n: nat)
    ensures ParseMemoryMi(Print(n) + "Mi") == if n < TWO64 then n else 512
  {
    ReadMemory(Print(n));
    ParsePrint(n);
  }

  /** The printed request, read back by the same parser, is a quarter of the
      limit rounded down, for every limit string at all. */
  lemma CpuRequestIsAQuarter(floatMillis: string -> Option<u64>, limit: string)
    ensures
      var request := ParseCpuMillis(floatMillis, CpuRequest(floatMillis, limit));
      4 * request <= ParseCpuMillis(floatMillis, limit) < 4 * (request + 1)
  {
    ReadMillis(floatMillis, ParseCpuMillis(floatMillis, limit) / 4);
  }

  lemma MemoryRequestIsAQuarter(limit: string)
    ensures
      var request := ParseMemoryMi(MemoryRequest(limit));
      4 * request <= ParseMemoryMi(limit) < 4 * (request + 1)
  {
    ReadMebibytes(ParseMemoryMi(limit) / 4);
  }

  lemma WrapsIffTooLarge(n: nat)
    ensures (n * 1024) % TWO64 == n * 1024 <==> n <= (TWO64 - 1) / 1024
  {
    assert (TWO64 - 1) / 1024 == 0x3F_FFFF_FFFF_FFFF;
  }

  /** A limit in gibibytes is converted exactly iff the product fits in 64 bits.
      Larger numerals are wrapped, or replaced by the fallback of 2 when they do
      not even parse. */
  lemma GibibytesExactIffInRange(n: nat)
    ensures ParseMemoryMi(Print(n) + "Gi") == n * 1024 <==> n <= (TWO64 - 1) / 1024
    ensures ParseMemoryMi(Print(n) + "G") == ParseMemoryMi(Print(n) + "Gi")
  {
    ReadMemory(Print(n));
    ParsePrint(n);
    WrapsIffTooLarge(n);
  }

  // ---------------------------------------------------------------------
  // The readings one by one
  // ---------------------------------------------------------------------

  /** Millis end in `m`; every other CPU limit is what the floating-point reading makes
      of it; what cannot be read is one CPU. */
  lemma ReadCpu(floatMillis: string -> Option<u64>, s: string)
    ensures
      var n := ParseCpuMillis(floatMillis, s);
      if |s| > 0 && s[|s| - 1] == 'm' then
        (match ParseU64(s[..|s| - 1])
         case Some(v) => n == v
         case None => n == 1000)
      else
        match floatMillis(s)
        case Some(v) => n == v
        case None => n == 1000
  {
    SuffixByLastChars(s);
  }

  /** What cannot be read is two gibibytes, or 512 mebibytes, by its suffix. */
  lemma MemoryFallbacks(v: string)
    requires ParseU64(v).None?
    ensures ParseMemoryMi(v + "Gi") == 2048 && ParseMemoryMi(v + "G") == 2048
    ensures ParseMemoryMi(v + "Mi") == 512 && ParseMemoryMi(v + "M") == 512
  {
    hide ParseU64, ParseMemoryMi;
    ReadMemory(v);
  }

  /** And without a suffix, whatever it is. */
  lemma MemoryWithoutUnit(s: string)
    requires |s| == 0 || (s[|s| - 1] != 'i' && s[|s| - 1] != 'G' && s[|s| - 1] != 'M')
    ensures ParseMemoryMi(s) == 512
  {
    hide ParseU64;
    SuffixByLastChars(s);
  }

  /** A numeral is a number of digits below 2^64, perhaps behind a plus sign. */
  lemma Numerals(digits: string)
    requires digits != [] && digits[0] != '+'
    ensures
      if AllDigits(digits) && Value(digits) <= 0xFFFF_FFFF_FFFF_FFFF then
        ParseU64(digits) == Some(Value(digits)) && ParseU64("+" + digits) == Some(Value(digits))
      else ParseU64(digits) == None && ParseU64("+" + digits) == None
    ensures ParseU64("") == None && ParseU64("+") == None && ParseU64("++" + digits) == None
  {
    assert ("+" + digits)[1..] == digits;
    var twice := "++" + digits;
    assert twice[1..][0] == '+' && !IsDigit('+') && '+' in twice[1..];
    assert "+"[1..] == "";
  }

  // ---------------------------------------------------------------------
  // Normalisation in the API
  // ---------------------------------------------------------------------

  function NormalizeResource(s: string): string {
    if EndsWith(s, "G") && !EndsWith(s, "Gi") then s + "i"
    else if EndsWith(s, "M") && !EndsWith(s, "Mi") then s + "i"
    else s
  }

  /** What the operator reads is the same with and without normalisation, also
      when the numeral is malformed: both spellings share a fallback. */
  lemma NormalizeKeepsMeaning(s: string)
    ensures ParseMemoryMi(NormalizeResource(s)) == ParseMemoryMi(s)
  {
    SuffixByLastChars(s);
    if EndsWith(s, "G") {
      var v := StripSuffix(s, "G").value;
      assert s + "i" == v + "Gi";
      ReadMemory(v);
    } else if EndsWith(s, "M") {
      var v := StripSuffix(s, "M").value;
      assert s + "i" == v + "Mi";
      ReadMemory(v);
    }
  }

  /** The result never carries a decimal suffix, so normalising again changes
      nothing. */
  lemma NormalizeSettles(s: string)
    ensures !EndsWith(NormalizeResource(s), "G") && !EndsWith(NormalizeResource(s), "M")
    ensures NormalizeResource(NormalizeResource(s)) == NormalizeResource(s)
  {
    SuffixByLastChars(s);
    SuffixByLastChars(s + "i");
  }
}
