/** How an HTTP request finds its way back to the session that caused it. */
module Correlation {
  import opened Common

  // ---------- Decimal numbers ----------

  function Digit(d: nat): char
    requires d < 10
  {
    ('0' as int + d) as char
  }

  /** A number as a stream prints it. */
  function Decimal(n: nat): string {
    if n < 10 then [Digit(n)] else Decimal(n / 10) + [Digit(n % 10)]
  }

  predicate IsDigit(c: char) {
    '0' <= c <= '9'
  }

  /** The number that a text of digits denotes. */
  function Value(s: string): nat
    requires forall i :: 0 <= i < |s| ==> IsDigit(s[i])
  {
    if s == [] then 0
    else
      assert IsDigit(s[|s| - 1]);
      10 * Value(s[..|s| - 1]) + (s[|s| - 1] as int - '0' as int)
  }

  lemma {:induction false} DecimalHasValue(n: nat)
    ensures forall i :: 0 <= i < |Decimal(n)| ==> IsDigit(Decimal(n)[i])
    ensures Value(Decimal(n)) == n
  {
    if n < 10 {
      assert Decimal(n)[..0] == [];
    } else {
      DecimalHasValue(n / 10);
      assert Decimal(n)[..|Decimal(n)| - 1] == Decimal(n / 10);
    }
  }

  /** Different numbers are printed differently. */
  lemma DecimalIsInjective(a: nat, b: nat)
    requires Decimal(a) == Decimal(b)
    ensures a == b
  {
    DecimalHasValue(a);
    DecimalHasValue(b);
  }

  function PowerOfTen(k: nat): nat {
    if k == 0 then 1 else 10 * PowerOfTen(k - 1)
  }

  lemma {:induction false} DecimalIsShort(n: nat, k: nat)
    requires k > 0 && n < PowerOfTen(k)
    ensures |Decimal(n)| <= k
  {
    assert PowerOfTen(1) == 10;
    if n >= 10 {
      DecimalIsShort(n / 10, k - 1);
    }
  }

  // ---------- The request ----------

  const PATH: string := "GET /stream?player"
  const HEADER_SIZE: nat := 64
  const NUL: char := 0 as char

  /** The request line put into a session's Start command. */
  function Request(clientID: string): string {
    PATH + ['='] + clientID
  }

  /** The header field of the command: the text in a field of zeros. */
  function HeaderField(text: string): string
    requires |text| < HEADER_SIZE
  {
    text + seq(HEADER_SIZE - |text|, _ => NUL)
  }

  /** The position of the first `c` at or after `from`. */
  function Find(s: string, c: char, from: nat := 0): (r: Option<nat>)
    requires from <= |s|
    ensures r.None? ==> c !in s[from..]
    ensures r.Some? ==> from <= r.value < |s| && s[r.value] == c && c !in s[from..r.value]
    decreases |s| - from
  {
    if from == |s| then None
    else if s[from] == c then Some(from)
    else
      assert s[from..] == [s[from]] + s[from + 1..];
      var r := Find(s, c, from + 1);
      assert r.Some? ==> s[from..r.value] == [s[from]] + s[from + 1..r.value];
      r
  }

  lemma FindsThe(s: string, c: char, k: nat)
    requires k < |s| && s[k] == c && c !in s[..k]
    ensures Find(s, c) == Some(k)
  {
    assert s[0..] == s && s[k] in s;
    NotBefore(s, c, k);
    if Find(s, c).Some? {
      assert s[0..Find(s, c).value] == s[..Find(s, c).value];
      NotBefore(s, c, Find(s, c).value);
    }
  }

  lemma NotBefore(s: string, c: char, k: nat)
    requires k <= |s| && c !in s[..k]
    ensures forall j :: 0 <= j < k ==> s[j] != c
  {
    forall j | 0 <= j < k ensures s[j] != c {
      assert s[..k][j] == s[j];
    }
  }

  /** What is transmitted of the header field: everything before the first zero. */
  function Transmitted(field: string): string {
    match Find(field, NUL)
    case None => field
    case Some(k) => field[..k]
  }

  /** Everything after the first equals sign. */
  function ParseClientID(request: string): Option<string> {
    match Find(request, '=')
    case None => None
    case Some(k) => Some(request[k + 1..])
  }

  /** What parsing means: the text is what follows the first equals sign, and there is
      none exactly when there is no such sign. */
  lemma ParsingMeans(request: string, before: string, clientID: string)
    ensures ParseClientID(request).None? <==> '=' !in request
    ensures '=' !in before && request == before + ['='] + clientID ==> ParseClientID(request) == Some(clientID)
  {
    assert request[0..] == request;
    if '=' !in before && request == before + ['='] + clientID {
      assert request[..|before|] == before;
      FindsThe(request, '=', |before|);
      assert request[|before| + 1..] == clientID;
    }
  }

  /** A client ID survives the way into the command, over the wire and back. */
  lemma {:induction false} ClientIDComesBack(clientID: string)
    requires |Request(clientID)| < HEADER_SIZE && NUL !in clientID
    ensures ParseClientID(Transmitted(HeaderField(Request(clientID)))) == Some(clientID)
  {
    var text, field := Request(clientID), HeaderField(Request(clientID));
    PathIsPlain();
    assert field[|text|] == NUL && field[..|text|] == text;
    assert NUL !in text;
    FindsThe(field, NUL, |text|);
    ParsingMeans(text, PATH, clientID);
  }

  lemma PathIsPlain()
    ensures NUL !in PATH && '=' !in PATH
  {
  }

  /** The IDs the server hands out: 64 bits of them fit the header field. */
  lemma NumbersComeBack(n: nat)
    requires n < 0x8000_0000_0000_0000
    ensures |Request(Decimal(n))| < HEADER_SIZE
    ensures ParseClientID(Transmitted(HeaderField(Request(Decimal(n))))) == Some(Decimal(n))
  {
    assert PowerOfTen(19) == 10_000_000_000_000_000_000 by {
      PowersOfTen();
    }
    DecimalIsShort(n, 19);
    DecimalHasValue(n);
    ClientIDComesBack(Decimal(n));
  }

  lemma PowersOfTen()
    ensures PowerOfTen(19) == 10_000_000_000_000_000_000
  {
    assert PowerOfTen(5) == 100_000;
    assert PowerOfTen(10) == 10_000_000_000;
    assert PowerOfTen(15) == 1_000_000_000_000_000;
  }
}
