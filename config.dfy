/**
 * Server configuration: the database URL and listening port read from the
 * environment, and the listen address derived from the port.
 */
module Config {
  import opened Base
  import opened Text

  const DefaultPort: int := 8080

  datatype Config = Config(databaseURL: string, port: int)

  /** The two ways loading can fail; `Message` gives the text of each. */
  datatype ConfigError = MissingDatabaseURL | InvalidPort(portText: string)

  /** os.Getenv: an unset variable reads as the empty string. */
  function Getenv(env: map<string, string>, name: string): (v: string)
    ensures name in env ==> v == env[name]
    ensures name !in env ==> v == ""
  {
    if name in env then env[name] else ""
  }

  /** An optional sign followed by at least one decimal digit: what Atoi accepts as syntax. */
  predicate AtoiSyntax(s: string)
  {
    var digits := if s != [] && (s[0] == '-' || s[0] == '+') then s[1..] else s;
    digits != [] && AllDigits(digits)
  }

  const Uint64Max: int := 0xFFFF_FFFF_FFFF_FFFF

  /** The text after Atoi's optional sign. */
  function Unsigned(s: string): (u: string)
    ensures |u| <= |s|
  {
    if s != [] && (s[0] == '-' || s[0] == '+') then s[1..] else s
  }

  /** The longest run of decimal digits at the start of s. */
  function DigitPrefix(s: string): (p: string)
    ensures p <= s && AllDigits(p)
    ensures p == s || !IsDigit(s[|p|])
  {
    if s == [] || !IsDigit(s[0]) then [] else [s[0]] + DigitPrefix(s[1..])
  }

  /**
   * Whether a failing strconv.Atoi reports a range error rather than a
   * syntax error. ParseUint reads the digits after the sign from left to
   * right and stops with ErrRange as soon as their value passes 2^64 - 1,
   * before it meets a later non-digit; a well-formed number outside the
   * int64 range is a range error as well.
   */
  predicate AtoiRangeError(s: string) {
    AtoiSyntax(s) || DigitsValue(DigitPrefix(Unsigned(s))) > Uint64Max
  }

  /** k decimal digits are worth less than 10^k. */
  lemma {:induction false} DigitsValueBound(d: string)
    requires AllDigits(d)
    ensures DigitsValue(d) < Pow10(|d|)
  {
    if d != [] {
      DigitsValueBound(d[..|d| - 1]);
    }
  }

  function Pow10(k: nat): (p: nat)
    ensures p >= 1
  {
    if k == 0 then 1 else 10 * Pow10(k - 1)
  }

  /**
   * At most 19 digits cannot pass 2^64 - 1, so a malformed PORT whose
   * leading digit run is that short is a syntax error.
   */
  lemma ShortDigitRunIsSyntaxError(s: string)
    requires !AtoiSyntax(s) && |DigitPrefix(Unsigned(s))| <= 19
    ensures !AtoiRangeError(s)
  {
    var p := DigitPrefix(Unsigned(s));
    DigitsValueBound(p);
    Pow10Monotone(|p|, 19);
    Pow10Values();
  }

  lemma Pow10Values()
    ensures Pow10(19) == 10_000_000_000_000_000_000
    ensures Pow10(20) == 100_000_000_000_000_000_000
  {
    assert Pow10(2) == 100;
    assert Pow10(4) == 10_000;
    assert Pow10(6) == 1_000_000;
    assert Pow10(8) == 100_000_000;
    assert Pow10(10) == 10_000_000_000;
    assert Pow10(12) == 1_000_000_000_000;
    assert Pow10(14) == 100_000_000_000_000;
    assert Pow10(16) == 10_000_000_000_000_000;
    assert Pow10(18) == 1_000_000_000_000_000_000;
  }

  lemma {:induction false} Pow10Monotone(i: nat, j: nat)
    requires i <= j
    ensures Pow10(i) <= Pow10(j)
    decreases j
  {
    if i < j {
      Pow10Monotone(i, j - 1);
    }
  }

  /** Twenty or more nines pass 2^64 - 1 before the trailing non-digit is read. */
  lemma OverflowBeforeLetterIsRangeError(n: nat, c: char)
    requires n >= 20 && !IsDigit(c)
    ensures !AtoiSyntax(seq(n, i => '9') + [c])
    ensures AtoiRangeError(seq(n, i => '9') + [c])
  {
    var nines := seq(n, i => '9');
    var s := nines + [c];
    assert s[0] == '9' && s[n] == c;
    assert s[..n] == nines;
    DigitPrefixOfRun(s, n);
    NinesValue(nines);
    Pow10Monotone(20, n);
    Pow10Values();
  }

  /** When the first n characters are digits and the next is not, they are the digit prefix. */
  lemma {:induction false} DigitPrefixOfRun(s: string, n: nat)
    requires n < |s| && AllDigits(s[..n]) && !IsDigit(s[n])
    ensures DigitPrefix(s) == s[..n]
  {
    if n > 0 {
      DigitPrefixOfRun(s[1..], n - 1);
      assert s[1..][..n - 1] == s[1..n];
      assert s[..n] == [s[0]] + s[1..n];
    }
  }

  /** A run of nines is one less than a power of ten. */
  lemma {:induction false} NinesValue(d: string)
    requires forall i :: 0 <= i < |d| ==> d[i] == '9'
    ensures AllDigits(d) && DigitsValue(d) == Pow10(|d|) - 1
  {
    if d != [] {
      NinesValue(d[..|d| - 1]);
    }
  }

  // ------------------------------------------------------------- strconv.Quote

  /** A character strconv.Quote copies as it is: printable ASCII other than `"` and `\`, or any non-ASCII one. */
  predicate IsPlainChar(c: char) {
    (' ' <= c <= '~' && c != '"' && c != '\\') || c as int >= 0x80
  }

  /** A lower-case hexadecimal digit. */
  function HexDigit(n: int): (c: char)
    requires 0 <= n < 16
    ensures HexValue(c) == n
  {
    "0123456789abcdef"[n]
  }

  function HexValue(c: char): (n: int)
    ensures 0 <= n < 16
  {
    if '0' <= c <= '9' then c as int - '0' as int
    else if 'a' <= c <= 'f' then c as int - 'a' as int + 10
    else 0
  }

  /**
   * How strconv.Quote writes one ASCII character: `"` and `\` behind a
   * backslash, the seven C escapes, `\x` and two hex digits for any other
   * control character.
   */
  function EscapeChar(c: char): (e: string)
    ensures IsPlainChar(c) ==> e == [c]
    ensures !IsPlainChar(c) ==> |e| >= 2 && e[0] == '\\'
  {
    if IsPlainChar(c) then [c]
    else if c == '"' then "\\\""
    else if c == '\\' then "\\\\"
    else if c as int == 7 then "\\a"
    else if c as int == 8 then "\\b"
    else if c as int == 12 then "\\f"
    else if c as int == 10 then "\\n"
    else if c as int == 13 then "\\r"
    else if c as int == 9 then "\\t"
    else if c as int == 11 then "\\v"
    else "\\x" + [HexDigit(c as int / 16), HexDigit(c as int % 16)]
  }

  /** The inside of strconv.Quote(s): each character escaped in turn. */
  function QuoteBody(s: string): (q: string)
    ensures |q| >= |s|
  {
    if s == [] then [] else EscapeChar(s[0]) + QuoteBody(s[1..])
  }

  /** strconv.Quote: the escaped text between double quotes. */
  function Quote(s: string): (q: string)
    ensures |q| >= |s| + 2 && q[0] == '"' && q[|q| - 1] == '"'
  {
    "\"" + QuoteBody(s) + "\""
  }

  /** The character a one-letter escape stands for. */
  function Unescaped(c: char): char {
    if c == 'a' then 7 as char
    else if c == 'b' then 8 as char
    else if c == 'f' then 12 as char
    else if c == 'n' then 10 as char
    else if c == 'r' then 13 as char
    else if c == 't' then 9 as char
    else if c == 'v' then 11 as char
    else c
  }

  /** Reading the inside of a quoted text back, escape by escape. */
  function Unquote(t: string): string
    decreases |t|
  {
    if t == [] then []
    else if t[0] == '\\' && |t| >= 4 && t[1] == 'x' then
      [(16 * HexValue(t[2]) + HexValue(t[3])) as char] + Unquote(t[4..])
    else if t[0] == '\\' && |t| >= 2 then [Unescaped(t[1])] + Unquote(t[2..])
    else [t[0]] + Unquote(t[1..])
  }

  /** One escaped character reads back as itself, whatever follows. */
  lemma UnquoteEscapeChar(c: char, rest: string)
    ensures Unquote(EscapeChar(c) + rest) == [c] + Unquote(rest)
  {
    var e := EscapeChar(c);
    if IsPlainChar(c) {
      assert (e + rest)[1..] == rest;
    } else if |e| == 2 {
      assert (e + rest)[2..] == rest;
    } else {
      assert e == "\\x" + [HexDigit(c as int / 16), HexDigit(c as int % 16)];
      assert (e + rest)[4..] == rest;
      assert 16 * (c as int / 16) + c as int % 16 == c as int;
    }
  }

  /** The quoted text of a PORT value reads back as that value. */
  lemma {:induction false} QuoteRoundTrip(s: string)
    ensures Unquote(QuoteBody(s)) == s
  {
    if s != [] {
      UnquoteEscapeChar(s[0], QuoteBody(s[1..]));
      QuoteRoundTrip(s[1..]);
    }
  }

  /** Text without quotes, backslashes or control characters is quoted as it is. */
  lemma {:induction false} QuotePlain(s: string)
    requires forall i :: 0 <= i < |s| ==> IsPlainChar(s[i])
    ensures QuoteBody(s) == s
  {
    if s != [] {
      QuotePlain(s[1..]);
    }
  }

  /** The error text of Load, wrapping strconv.Atoi's syntax or range error. */
  function Message(e: ConfigError): (m: string)
    ensures e == MissingDatabaseURL ==> m == "DATABASE_URL environment variable is required"
    ensures e.InvalidPort? ==>
              m == "PORT must be a valid integer: strconv.Atoi: parsing " + Quote(e.portText) + ": " +
                   (if AtoiRangeError(e.portText) then "value out of range" else "invalid syntax")
  {
    match e
    case MissingDatabaseURL => "DATABASE_URL environment variable is required"
    case InvalidPort(s) =>
      "PORT must be a valid integer: strconv.Atoi: parsing " + Quote(s) + ": "
      + (if AtoiRangeError(s) then "value out of range" else "invalid syntax")
  }

  /** A double quote inside a PORT value is escaped in the quoted text. */
  lemma QuotedPortExample()
    ensures Quote("8\"0") == "\"8\\\"0\""
  {
    assert "8\"0"[1..] == "\"0";
    assert "\"0"[1..] == "0";
    assert "0"[1..] == [];
  }

  /**
   * Load: DATABASE_URL must be non-empty; an unset or empty PORT gives
   * 8080, any other PORT must be a decimal int64.
   */
  function Load(env: map<string, string>): (r: Result<Config, ConfigError>)
    ensures Getenv(env, "DATABASE_URL") == "" ==> r == Failure(MissingDatabaseURL)
    ensures r.Success? <==>
              Getenv(env, "DATABASE_URL") != "" && (Getenv(env, "PORT") == "" || GoAtoi(Getenv(env, "PORT")).Some?)
    ensures r.Failure? && Getenv(env, "DATABASE_URL") != "" ==> r.error == InvalidPort(Getenv(env, "PORT"))
    ensures r.Success? ==> r.value.databaseURL == Getenv(env, "DATABASE_URL") && r.value.databaseURL != ""
    ensures r.Success? && Getenv(env, "PORT") == "" ==> r.value.port == DefaultPort
    ensures r.Success? && Getenv(env, "PORT") != "" ==> Some(r.value.port) == GoAtoi(Getenv(env, "PORT"))
  {
    var url := Getenv(env, "DATABASE_URL");
    if url == "" then Failure(MissingDatabaseURL)
    else
      var portText := Getenv(env, "PORT");
      if portText == "" then Success(Config(url, DefaultPort))
      else
        match GoAtoi(portText)
        case None => Failure(InvalidPort(portText))
        case Some(port) => Success(Config(url, port))
  }

  /** The listen address ":<port>". */
  function GetAddr(c: Config): (addr: string)
    ensures |addr| >= 2 && addr[0] == ':'
    ensures addr[1..] == IntToString(c.port)
  {
    ":" + IntToString(c.port)
  }

  /** A loaded port is an int64, so the address names it exactly: Atoi reads it back. */
  lemma AddrNamesLoadedPort(env: map<string, string>)
    requires Load(env).Success?
    ensures GoAtoi(GetAddr(Load(env).value)[1..]) == Some(Load(env).value.port)
  {
    var c := Load(env).value;
    GoAtoiRoundTrip(c.port);
  }

  /** Configuring PORT as the decimal text of an int64 serves on exactly that port. */
  lemma PortRoundTrip(url: string, port: int)
    requires url != "" && Int64Min <= port <= Int64Max
    ensures Load(map["DATABASE_URL" := url, "PORT" := IntToString(port)]) == Success(Config(url, port))
    ensures GetAddr(Config(url, port)) == ":" + IntToString(port)
  {
    var env := map["DATABASE_URL" := url, "PORT" := IntToString(port)];
    assert Getenv(env, "PORT") == IntToString(port);
    GoAtoiRoundTrip(port);
  }
}
