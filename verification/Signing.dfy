/** The signed-message encoding of src/services/webhooks.py: HMAC over `timestamp.body`. The MAC itself is
    an arbitrary function of key and message, given as a parameter. */
module Signing {
  import opened Errors

  type Byte = x: int | 0 <= x < 256

  type Bytes = seq<Byte>

  type Mac = (Bytes, Bytes) -> string

  const DOT: Byte := '.' as int

  // ---------------------------------------------------------------------------------------
  // Decimal integers
  // ---------------------------------------------------------------------------------------

  predicate IsDigit(c: char) {
    '0' <= c <= '9'
  }

  predicate AllDigits(s: string) {
    forall i | 0 <= i < |s| :: IsDigit(s[i])
  }

  function Digits(n: nat): (s: string)
    ensures s != [] && AllDigits(s)
  {
    (if n < 10 then [] else Digits(n / 10)) + ['0' + (n % 10) as char]
  }

  function Number(s: string): nat
    requires AllDigits(s)
  {
    if s == [] then 0 else 10 * Number(s[..|s| - 1]) + (s[|s| - 1] - '0') as nat
  }

  function PrintInt(i: int): (s: string) {
    if i < 0 then "-" + Digits(-i) else Digits(i)
  }

  /** An optional sign and at least one digit; anything else is a ValueError. */
  function ParseInt(s: string): Option<int> {
    var signed := s != [] && (s[0] == '-' || s[0] == '+');
    var digits := if signed then s[1..] else s;
    if digits == [] || !AllDigits(digits) then None
    else
      var n: int := Number(digits);
      Some(if signed && s[0] == '-' then -n else n)
  }

  lemma {:induction false} NumberOfDigits(n: nat)
    ensures Number(Digits(n)) == n
  {
    var s := Digits(n);
    if n < 10 {
      assert s[..|s| - 1] == [];
    } else {
      NumberOfDigits(n / 10);
      assert s[..|s| - 1] == Digits(n / 10);
    }
  }

  /** Parsing a printed integer gives it back. */
  lemma ParsePrint(i: int)
    ensures ParseInt(PrintInt(i)) == Some(i)
  {
    hide Number, Digits;
    var n: nat := if i < 0 then -i else i;
    var ds := Digits(n);
    NumberOfDigits(n);
    assert IsDigit(ds[0]);
    assert ("-" + ds)[1..] == ds;
  }

  lemma {:induction false} LeadingZero(ds: string)
    requires AllDigits(ds)
    ensures AllDigits("0" + ds) && Number("0" + ds) == Number(ds)
    decreases |ds|
  {
    var s := "0" + ds;
    if ds == "" {
      assert s[..0] == "";
    } else {
      assert s[..|s| - 1] == "0" + ds[..|ds| - 1];
      LeadingZero(ds[..|ds| - 1]);
    }
  }

  lemma Unsigned(ds: string)
    requires ds != "" && AllDigits(ds)
    ensures ParseInt(ds) == Some(Number(ds) as int)
  {
    hide Number;
    assert IsDigit(ds[0]);
  }

  lemma Signed(sign: char, ds: string)
    requires (sign == '+' || sign == '-') && ds != "" && AllDigits(ds)
    ensures var n: int := Number(ds);
            ParseInt([sign] + ds) == Some(if sign == '-' then -n else n)
  {
    hide Number;
    assert ([sign] + ds)[1..] == ds;
  }

  /** A header need not be the numeral that was sent: a plus sign or a leading zero changes nothing, and a minus sign
      negates. */
  lemma HeadersThatParse(ds: string)
    requires ds != "" && AllDigits(ds)
    ensures var n: int := Number(ds);
            && ParseInt(ds) == Some(n) && ParseInt("0" + ds) == Some(n)
            && ParseInt("+" + ds) == Some(n) && ParseInt("-" + ds) == Some(-n)
  {
    hide Number, ParseInt, AllDigits;
    LeadingZero(ds);
    Unsigned(ds);
    Unsigned("0" + ds);
    Signed('+', ds);
    Signed('-', ds);
  }

  /** No digits at all, or any other character, is refused. */
  lemma HeadersThatDoNotParse(s: string)
    ensures ParseInt(s) == None <==>
              var digits := if s != "" && (s[0] == '+' || s[0] == '-') then s[1..] else s;
              digits == "" || exists i | 0 <= i < |digits| :: !('0' <= digits[i] <= '9')
  {
    hide Number;
  }

  lemma {:induction false} LeadingDigit(n: nat)
    ensures n > 0 ==> '1' <= Digits(n)[0] <= '9'
    ensures n == 0 ==> Digits(n) == "0"
  {
    if n >= 10 {
      LeadingDigit(n / 10);
    }
  }

  /** The numeral printed is the canonical one: digits after an optional minus, no plus and no leading zero. */
  lemma PrintIsCanonical(i: int)
    ensures var s := PrintInt(i);
            && (i == 0 ==> s == "0")
            && (i > 0 ==> AllDigits(s) && s[0] != '0')
            && (i < 0 ==> |s| >= 2 && s[0] == '-' && AllDigits(s[1..]) && s[1] != '0')
  {
    LeadingDigit(if i < 0 then -i else i);
    hide Digits;
    if i < 0 {
      assert ("-" + Digits(-i))[1..] == Digits(-i);
    }
  }

  // ---------------------------------------------------------------------------------------
  // The message
  // ---------------------------------------------------------------------------------------

  predicate Ascii(s: string) {
    forall i | 0 <= i < |s| :: s[i] < 128 as char
  }

  function Encode(s: string): (bs: Bytes)
    requires Ascii(s)
  {
    seq(|s|, i requires 0 <= i < |s| => s[i] as int)
  }

  lemma PrintedIsPlain(i: int)
    ensures Ascii(PrintInt(i)) && Ascii(PrintInt(i) + ".")
    ensures forall k | 0 <= k < |PrintInt(i)| :: PrintInt(i)[k] != '.'
  {
    var s := PrintInt(i);
    forall k | 0 <= k < |s| ensures s[k] == '-' || IsDigit(s[k]) {
      if i < 0 {
        assert k > 0 ==> s[k] == Digits(-i)[k - 1];
      }
    }
  }

  function Message(timestamp: int, body: Bytes): Bytes {
    PrintedIsPlain(timestamp);
    Encode(PrintInt(timestamp) + ".") + body
  }

  /** The first dot of a message ends its timestamp. */
  lemma MessageAt(timestamp: int, body: Bytes, k: nat)
    ensures var m, n := Message(timestamp, body), |PrintInt(timestamp)|;
            && |m| == n + 1 + |body|
            && m[n] == DOT
            && m[n + 1..] == body
            && (k < n ==> m[k] != DOT && m[k] == PrintInt(timestamp)[k] as int)
  {
    PrintedIsPlain(timestamp);
  }

  /** Equal messages have equal timestamps and equal bodies: nothing can be moved across the dot. */
  lemma MessageIsInjective(t: int, body: Bytes, t': int, body': Bytes)
    requires Message(t, body) == Message(t', body')
    ensures t == t' && body == body'
  {
    var s, s' := PrintInt(t), PrintInt(t');
    MessageAt(t, body, |s'|);
    MessageAt(t', body', |s|);
    assert |s| == |s'|;
    forall k | 0 <= k < |s| ensures s[k] == s'[k] {
      MessageAt(t, body, k);
      MessageAt(t', body', k);
    }
    assert s == s';
    ParsePrint(t);
    ParsePrint(t');
  }

  // ---------------------------------------------------------------------------------------
  // Signatures
  // ---------------------------------------------------------------------------------------

  function Sign(mac: Mac, secret: Bytes, timestamp: int, body: Bytes): string {
    "sha256=" + mac(secret, Message(timestamp, body))
  }

  /** `None` is the ValueError of a timestamp that is not an integer. */
  function Verify(mac: Mac, secret: Bytes, timestamp: string, body: Bytes, signature: string): Option<bool> {
    match ParseInt(timestamp)
    case None => None
    case Some(t) => Some(Sign(mac, secret, t, body) == signature)
  }

  /** A receiver accepts what was signed, under any MAC. */
  lemma VerifyAcceptsSigned(mac: Mac, secret: Bytes, timestamp: int, body: Bytes)
    ensures Verify(mac, secret, PrintInt(timestamp), body, Sign(mac, secret, timestamp, body)) == Some(true)
  {
    ParsePrint(timestamp);
  }

  /** A receiver that knows the secret accepts exactly one header: `sha256=` and the MAC of the timestamp's digits,
      a dot and the body. */
  lemma AcceptedForm(mac: Mac, secret: Bytes, header: string, body: Bytes, signature: string)
    ensures Verify(mac, secret, header, body, signature) == Some(true) <==>
              && ParseInt(header).Some?
              && |signature| >= 7 && signature[..7] == "sha256="
              && signature[7..] == mac(secret, Message(ParseInt(header).value, body))
  {
    if ParseInt(header).Some? {
      var tag := mac(secret, Message(ParseInt(header).value, body));
      assert ("sha256=" + tag)[..7] == "sha256=" && ("sha256=" + tag)[7..] == tag;
      if |signature| >= 7 {
        assert signature == signature[..7] + signature[7..];
      }
    }
  }

  /** And a signature is accepted for another timestamp or body only by a collision of the MAC: it binds
      both, exactly, iff the MAC tells the two messages apart. */
  lemma SignatureBindsTimestampAndBody(
      mac: Mac, secret: Bytes, t: int, body: Bytes, header: string, body': Bytes)
    requires ParseInt(header).Some?
    requires var m, m' := Message(t, body), Message(ParseInt(header).value, body');
             m != m' ==> mac(secret, m) != mac(secret, m')
    ensures Verify(mac, secret, header, body', Sign(mac, secret, t, body)) == Some(true)
       <==> ParseInt(header) == Some(t) && body' == body
  {
    var t' := ParseInt(header).value;
    var tag, tag' := mac(secret, Message(t, body)), mac(secret, Message(t', body'));
    assert ("sha256=" + tag)[7..] == tag && ("sha256=" + tag')[7..] == tag';
    if Message(t, body) == Message(t', body') {
      MessageIsInjective(t, body, t', body');
    }
  }
}
