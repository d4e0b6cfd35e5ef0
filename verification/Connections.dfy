/** Connection identifiers and the life of one accepted connection on the agent. */
module Connections {
  import opened Bytes
  import opened Text

  // ---- identifiers ----

  /** s.ljust(width, 'L') */
  function Ljust(s: Str, width: nat): Str
    decreases width - |s|
  {
    if |s| >= width then s else Ljust(s + [76], width)
  }

  function IdText(n: nat): Str {
    Ljust(Decimal(n), 16)
  }

  /** str(n).ljust(16, 'L').encode() */
  function ConnectionId(n: nat): bytes {
    IdEncodes(n);
    Encode(Utf8, IdText(n)).value
  }

  /** What is in front of the padding. */
  function Unpad(s: Str): Str
    decreases |s|
  {
    if s != [] && s[|s| - 1] == 76 then Unpad(s[..|s| - 1]) else s
  }

  lemma {:induction false} UnpadLjust(s: Str, width: nat)
    ensures Unpad(Ljust(s, width)) == Unpad(s)
    ensures IsAscii(s) ==> IsAscii(Ljust(s, width))
    ensures |Ljust(s, width)| == if |s| < width then width else |s|
    decreases width - |s|
  {
    if |s| < width {
      UnpadLjust(s + [76], width);
      assert (s + [76])[..|s|] == s;
    }
  }

  lemma {:induction false} LjustPads(s: Str, width: nat)
    ensures |Ljust(s, width)| >= |s| && Ljust(s, width)[..|s|] == s
    ensures forall i :: |s| <= i < |Ljust(s, width)| ==> Ljust(s, width)[i] == 76
    decreases width - |s|
  {
    if |s| < width {
      LjustPads(s + [76], width);
      assert Ljust(s, width)[..|s|] == Ljust(s, width)[..|s| + 1][..|s|];
    }
  }

  /** The text of an identifier: the decimal digits of the counter and the letter L behind them up to 16 characters. */
  lemma IdForm(n: nat)
    ensures var t, d := IdText(n), Decimal(n);
            && d <= t && |t| == (if |d| < 16 then 16 else |d|)
            && (forall i :: |d| <= i < |t| ==> t[i] == 76)
            && Encode(Utf8, t) == Some(ConnectionId(n))
  {
    hide Ljust, Encode, Decimal;
    LjustPads(Decimal(n), 16);
    IdEncodes(n);
  }

  lemma IdEncodes(n: nat)
    ensures IsAscii(IdText(n)) && Encode(Utf8, IdText(n)).Some?
    ensures Unpad(IdText(n)) == Decimal(n)
    ensures |IdText(n)| == if |Decimal(n)| < 16 then 16 else |Decimal(n)|
  {
    DecimalEncodes(n);
    UnpadLjust(Decimal(n), 16);
    AsciiEncodes(Utf8, IdText(n));
  }

  function Pow10(k: nat): nat {
    if k == 0 then 1 else 10 * Pow10(k - 1)
  }

  lemma {:induction false} DigitCount(n: nat, k: nat)
    requires k >= 1
    ensures |Digits(n)| <= k <==> n < Pow10(k)
  {
    if n < 10 {
      assert Pow10(k) >= 10 by { PowAtLeast(k); }
    } else if k == 1 {
      assert Pow10(1) == 10 * Pow10(0);
    } else {
      DigitCount(n / 10, k - 1);
      assert n < 10 * Pow10(k - 1) <==> n / 10 < Pow10(k - 1);
    }
  }

  lemma {:induction false} PowAtLeast(k: nat)
    requires k >= 1
    ensures Pow10(k) >= 10
  {
    if k > 1 {
      PowAtLeast(k - 1);
    }
  }

  /** Identifiers of different counters differ, and they are 16 bytes exactly below 10^16. */
  lemma IdsAreDistinct(m: nat, n: nat)
    ensures ConnectionId(m) == ConnectionId(n) <==> m == n
    ensures |ConnectionId(n)| == 16 <==> n < 10_000_000_000_000_000
  {
    hide Ljust, Unpad, Decimal, Encode, IsAscii, Pow10, IdText, ParseInt, Decode;
    IdEncodes(m);
    IdEncodes(n);
    if ConnectionId(m) == ConnectionId(n) {
      TextRoundTrip(Utf8, IdText(m));
      TextRoundTrip(Utf8, IdText(n));
      DecimalRoundTrip(m);
      DecimalRoundTrip(n);
    }
    Utf8Length(IdText(n));
    DigitCount(n, 16);
    DecimalIsDigits(n);
    SixteenDigits();
  }

  lemma SixteenDigits()
    ensures Pow10(16) == 10_000_000_000_000_000
  {
    assert Pow10(4) == 10000;
    assert Pow10(8) == 10000 * Pow10(4);
    assert Pow10(12) == 10000 * Pow10(8);
    assert Pow10(16) == 10000 * Pow10(12);
  }

  lemma DecimalIsDigits(n: nat)
    ensures Decimal(n) == Digits(n)
  {}

  // ---- one connection ----

  /**
   `registered`: in the table incoming data is looked up in. `disconnected`: stop has begun. `stopping`:
   stop is suspended while its notice is being sent. `notices` counts stop notices, `noticeLost` says
   that sending one raised. `socket` is what was written to the peer, `writerClosed` that it was closed.
   */
  datatype Conn = Conn(registered: bool, disconnected: bool, stopping: bool, notices: nat, noticeLost: bool,
                       socket: bytes, writerClosed: bool)

  function Accepted(): Conn {
    Conn(true, false, false, 0, false, [], false)
  }

  /** stop up to its await: only the first call goes past the check, every call ends by closing. */
  function StopCall(c: Conn): Conn {
    if c.disconnected then c.(writerClosed := true)
    else c.(disconnected := true, stopping := true, notices := c.notices + 1)
  }

  /** stop after its await: deregistration is skipped when sending the notice raised. */
  function StopSent(c: Conn, ok: bool): Conn {
    c.(stopping := false, registered := c.registered && !ok, noticeLost := !ok, writerClosed := true)
  }

  function SocketWrite(c: Conn, data: bytes): Conn {
    if c.writerClosed then c else c.(socket := c.socket + data)
  }

  /** What every step keeps: one notice per connection, sent by the stop that got past the check. */
  predicate StopsOnce(c: Conn) {
    && c.notices == (if c.disconnected then 1 else 0)
    && (c.stopping ==> c.disconnected && c.registered)
    && (!c.disconnected ==> c.registered && !c.writerClosed && !c.noticeLost)
    && (c.disconnected && !c.stopping ==> (c.registered <==> c.noticeLost))
  }

  lemma LifeKeepsStopsOnce(c: Conn, data: bytes, ok: bool)
    requires StopsOnce(c)
    ensures StopsOnce(StopCall(c))
    ensures c.stopping ==> StopsOnce(StopSent(c, ok))
    ensures StopsOnce(SocketWrite(c, data))
  {}
}
