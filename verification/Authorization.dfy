/**
  The message a requester signs to authorise a withdrawal
  (tasks/process_withdrawal_requests.go, buildWithdrawalAuthorizationMessage).
*/
module Authorization {
  datatype Request = Request(address: string, amount: nat, benefit: string, network: string, timestamp: int)

  function Digits(n: nat): string {
    if n < 10 then [('0' as int + n) as char] else Digits(n / 10) + [('0' as int + n % 10) as char]
  }

  function Decimal(n: int): string {
    if n < 0 then "-" + Digits(-n) else Digits(n)
  }

  function Message(r: Request): string {
    "Crynux Relay\nAction: Withdraw " + (Decimal(r.amount) + " " + FromOn(r))
  }

  function FromOn(r: Request): string {
    "from " + (r.address + " " + ToOn(r))
  }

  function ToOn(r: Request): string {
    "to " + (r.benefit + " " + NetworkOn(r))
  }

  function NetworkOn(r: Request): string {
    "on " + (r.network + "\n" + Footer(r))
  }

  function Footer(r: Request): string {
    "Address: " + r.address + "\nTimestamp: " + Decimal(r.timestamp)
  }

  /** Addresses are hex strings and networks configuration keys, so neither holds the separators. */
  predicate WellFormed(r: Request) {
    ' ' !in r.address && ' ' !in r.benefit && '\n' !in r.network
  }

  // ---------------------------------------------------------------- decimal notation

  lemma {:induction false} DigitsAreDigits(n: nat)
    ensures Digits(n) != [] && forall i :: 0 <= i < |Digits(n)| ==> '0' <= Digits(n)[i] <= '9'
  {
    if n >= 10 {
      DigitsAreDigits(n / 10);
    }
  }

  /** The number a row of decimal digits denotes. */
  function Denoted(s: string): int {
    if s == "" then 0 else 10 * Denoted(s[..|s| - 1]) + (s[|s| - 1] as int - '0' as int)
  }

  /** Decimal notation denotes the number it is made from, and has no leading zeros. */
  lemma {:induction false} DigitsDenote(n: nat)
    ensures Denoted(Digits(n)) == n && (n > 0 ==> Digits(n)[0] != '0')
  {
    DigitsAreDigits(n);
    if n >= 10 {
      DigitsDenote(n / 10);
      DigitsAreDigits(n / 10);
      assert Digits(n)[..|Digits(n)| - 1] == Digits(n / 10);
    } else {
      assert Digits(n)[..0] == "";
    }
  }

  lemma SignShows(n: int)
    ensures Decimal(n) != "" && (n < 0 <==> Decimal(n)[0] == '-')
    ensures n < 0 ==> Decimal(n)[1..] == Digits(-n)
  {
    DigitsAreDigits(if n < 0 then -n else n);
  }

  lemma DecimalInjective(m: int, n: int)
    requires Decimal(m) == Decimal(n)
    ensures m == n
  {
    SignShows(m);
    SignShows(n);
    DigitsDenote(if m < 0 then -m else m);
    DigitsDenote(if n < 0 then -n else n);
  }

  // ---------------------------------------------------------------- the text

  lemma Flatten(head: string, field: string, word: string, rest: string)
    ensures head + (field + " " + (word + rest)) == head + field + (" " + word) + rest
  {
  }

  lemma FlattenFooter(head: string, network: string, address: string, timestamp: string)
    ensures head + (network + "\n" + ("Address: " + address + "\nTimestamp: " + timestamp))
         == head + network + "\nAddress: " + address + "\nTimestamp: " + timestamp
  {
    assert "\n" + "Address: " == "\nAddress: ";
  }

  /** The whole text that is signed. */
  lemma MessageText(r: Request)
    ensures Message(r) ==
            "Crynux Relay\nAction: Withdraw " + Decimal(r.amount) + " from " + r.address + " to " + r.benefit
            + " on " + r.network + "\nAddress: " + r.address + "\nTimestamp: " + Decimal(r.timestamp)
  {
    var head := "Crynux Relay\nAction: Withdraw ";
    assert " " + "from " == " from " && " " + "to " == " to " && " " + "on " == " on ";
    Flatten(head, Decimal(r.amount), "from ", r.address + " " + ToOn(r));
    head := head + Decimal(r.amount) + " from ";
    Flatten(head, r.address, "to ", r.benefit + " " + NetworkOn(r));
    head := head + r.address + " to ";
    Flatten(head, r.benefit, "on ", r.network + "\n" + Footer(r));
    head := head + r.benefit + " on ";
    FlattenFooter(head, r.network, r.address, Decimal(r.timestamp));
  }

  // ---------------------------------------------------------------- cutting at a separator

  function IndexOf(s: string, c: char): nat {
    if s == "" || s[0] == c then 0 else 1 + IndexOf(s[1..], c)
  }

  lemma {:induction false} IndexOfSeparator(a: string, c: char, x: string)
    requires c !in a
    ensures IndexOf(a + [c] + x, c) == |a|
  {
    if a != "" {
      assert (a + [c] + x)[1..] == a[1..] + [c] + x;
      IndexOfSeparator(a[1..], c, x);
    }
  }

  /** A field that does not contain the separator following it is determined by the text. */
  lemma CutAtSeparator(a: string, b: string, c: char, x: string, y: string)
    requires c !in a && c !in b
    requires a + [c] + x == b + [c] + y
    ensures a == b && x == y
  {
    IndexOfSeparator(a, c, x);
    IndexOfSeparator(b, c, y);
    var s := a + [c] + x;
    assert a == s[..|a|] && b == s[..|b|];
    assert x == s[|a| + 1..] && y == s[|b| + 1..];
  }

  lemma DropPrefix(p: string, x: string, y: string)
    requires p + x == p + y
    ensures x == y
  {
    assert x == (p + x)[|p|..] && y == (p + y)[|p|..];
  }

  /** Two well-formed requests with the same signed message are the same request. */
  lemma MessageInjective(r: Request, q: Request)
    requires WellFormed(r) && WellFormed(q)
    requires Message(r) == Message(q)
    ensures r == q
  {
    DropPrefix("Crynux Relay\nAction: Withdraw ", Decimal(r.amount) + " " + FromOn(r),
               Decimal(q.amount) + " " + FromOn(q));
    DigitsAreDigits(r.amount);
    DigitsAreDigits(q.amount);
    CutAtSeparator(Decimal(r.amount), Decimal(q.amount), ' ', FromOn(r), FromOn(q));
    DecimalInjective(r.amount, q.amount);
    DropPrefix("from ", r.address + " " + ToOn(r), q.address + " " + ToOn(q));
    CutAtSeparator(r.address, q.address, ' ', ToOn(r), ToOn(q));
    DropPrefix("to ", r.benefit + " " + NetworkOn(r), q.benefit + " " + NetworkOn(q));
    CutAtSeparator(r.benefit, q.benefit, ' ', NetworkOn(r), NetworkOn(q));
    DropPrefix("on ", r.network + "\n" + Footer(r), q.network + "\n" + Footer(q));
    CutAtSeparator(r.network, q.network, '\n', Footer(r), Footer(q));
    DropPrefix("Address: " + r.address + "\nTimestamp: ", Decimal(r.timestamp), Decimal(q.timestamp));
    DecimalInjective(r.timestamp, q.timestamp);
  }

  /** Without well-formedness it fails: a space in the beneficiary moves the boundary to the network. */
  lemma IllFormedMessagesCollide(timestamp: int)
    ensures var r := Request("a", 1, "b on c", "d", timestamp);
            var q := Request("a", 1, "b", "c on d", timestamp);
            r != q && Message(r) == Message(q) && !WellFormed(r) && WellFormed(q)
  {
    var r, q := Request("a", 1, "b on c", "d", timestamp), Request("a", 1, "b", "c on d", timestamp);
    assert Footer(r) == Footer(q);
    assert "b on c" + " " + ("on " + ("d" + "\n" + Footer(q))) == "b" + " " + ("on " + ("c on d" + "\n" + Footer(q)));
    assert ToOn(r) == ToOn(q) && FromOn(r) == FromOn(q);
  }
}
