/** Signed callback payloads of session buttons (src/assistant/channels/telegram/session_resume_callbacks.py). */
module ResumeCallback {
  import opened Numerals

  const TTL_SECONDS := 3600
  const ACTION := "rs"
  const SIGNATURE_LENGTH := 12

  /** The truncated hexadecimal MAC under one secret. */
  type Mac = string -> string

  ghost predicate HexMac(mac: Mac) {
    forall m :: |mac(m)| == SIGNATURE_LENGTH && NoColonIn(mac(m)) && IsAscii(mac(m))
  }

  predicate IsAscii(s: string) {
    forall i :: 0 <= i < |s| ==> s[i] < '\U{80}'
  }

  /** Comparing with a non-ASCII signature raises TypeError. */
  datatype Verdict = Accepted(id: string) | Refused | Raised

  // ---------------------------------------------------------------- partitions

  /** The first colon, or the end. */
  function FirstColon(s: string): (i: nat)
    ensures i <= |s| && (i < |s| ==> s[i] == ':')
    ensures forall j :: 0 <= j < i ==> s[j] != ':'
  {
    if s == "" || s[0] == ':' then 0 else 1 + FirstColon(s[1..])
  }

  /** The last colon, or -1. */
  function LastColon(s: string): (i: int)
    ensures -1 <= i < |s| && (i >= 0 ==> s[i] == ':')
    ensures forall j :: i < j < |s| ==> s[j] != ':'
  {
    if s == "" then -1 else if s[|s| - 1] == ':' then |s| - 1 else LastColon(s[..|s| - 1])
  }

  /** `rpartition(":")` without the separator; all goes right when there is none. */
  function SplitLast(s: string): (string, string) {
    var i := LastColon(s);
    if i < 0 then ("", s) else (s[..i], s[i + 1..])
  }

  /** `partition(":")` without the separator; all goes left when there is none. */
  function SplitFirst(s: string): (string, string) {
    var i := FirstColon(s);
    if i == |s| then (s, "") else (s[..i], s[i + 1..])
  }

  predicate NoColonIn(s: string) {
    forall i :: 0 <= i < |s| ==> s[i] != ':'
  }

  lemma SplitLastJoined(a: string, b: string)
    requires NoColonIn(b)
    ensures SplitLast(a + ":" + b) == (a, b)
  {
    var s := a + ":" + b;
    assert s[|a|] == ':' && s[..|a|] == a && s[|a| + 1..] == b;
    forall j | |a| < j < |s| ensures s[j] != ':' {
      assert s[j] == b[j - |a| - 1];
    }
  }

  lemma SplitFirstJoined(a: string, b: string)
    requires NoColonIn(a)
    ensures SplitFirst(a + ":" + b) == (a, b)
  {
    var s := a + ":" + b;
    assert s[|a|] == ':' && s[..|a|] == a && s[|a| + 1..] == b;
    forall j | 0 <= j < |a| ensures s[j] != ':' {
      assert s[j] == a[j];
    }
  }

  lemma Rejoined(s: string, i: int)
    requires 0 <= i < |s| && s[i] == ':'
    ensures s == s[..i] + ":" + s[i + 1..]
  {
    assert ":" == [s[i]];
  }

  lemma LastRejoined(s: string)
    ensures SplitLast(s).0 != "" ==> s == SplitLast(s).0 + ":" + SplitLast(s).1
    ensures NoColonIn(SplitLast(s).1)
  {
    var i := LastColon(s);
    if i >= 0 {
      Rejoined(s, i);
      var t := s[i + 1..];
      forall k | 0 <= k < |t| ensures t[k] != ':' {
        assert t[k] == s[i + 1 + k];
      }
    }
  }

  lemma FirstRejoined(s: string)
    ensures SplitFirst(s).1 != "" ==> s == SplitFirst(s).0 + ":" + SplitFirst(s).1
  {
    var i := FirstColon(s);
    if i < |s| {
      Rejoined(s, i);
    }
  }

  // ---------------------------------------------------------------- sign and verify

  /** What is signed: the chat, the session and the time in hexadecimal. */
  function Message(chat: int, id: string, time: string): string {
    PrintInt(chat, 10) + ":" + id + ":" + time
  }

  function Payload(mac: Mac, chat: int, id: string, time: string): string {
    ACTION + ":" + id + ":" + time + ":" + mac(Message(chat, id, time))
  }

  /** `sign_resume_callback` at time `ts` */
  function Sign(mac: Mac, id: string, chat: int, ts: int): string {
    Payload(mac, chat, id, PrintInt(ts, 16))
  }

  /** `_verify_compact_callback` */
  function Verify(mac: Mac, data: string, chat: int, now: int): Verdict {
    var (withoutSig, sig) := SplitLast(data);
    if withoutSig == "" || sig == "" then Refused
    else
      var (withoutTs, time) := SplitLast(withoutSig);
      if withoutTs == "" || time == "" then Refused
      else
        var (action, id) := SplitFirst(withoutTs);
        if action != ACTION || id == "" then Refused
        else match ParseHex(time)
             case None => Refused
             case Some(ts) =>
               if now - ts < 0 || now - ts > TTL_SECONDS then Refused
               else if !IsAscii(sig) then Raised
               else if sig != mac(Message(chat, id, time)) then Refused
               else Accepted(id)
  }

  lemma SplitPayload(mac: Mac, chat: int, id: string, time: string)
    requires HexMac(mac) && NoColonIn(time)
    ensures var data := Payload(mac, chat, id, time);
            && SplitLast(data) == (ACTION + ":" + id + ":" + time, mac(Message(chat, id, time)))
            && SplitLast(ACTION + ":" + id + ":" + time) == (ACTION + ":" + id, time)
            && SplitFirst(ACTION + ":" + id) == (ACTION, id)
  {
    SplitLastJoined(ACTION + ":" + id + ":" + time, mac(Message(chat, id, time)));
    SplitLastJoined(ACTION + ":" + id, time);
    SplitFirstJoined(ACTION, id);
  }

  /** A payload verifies to its id, colons and all, exactly within the hour after it was signed. */
  lemma SignedVerifies(mac: Mac, id: string, chat: int, ts: int, now: int)
    requires HexMac(mac) && id != ""
    ensures Verify(mac, Sign(mac, id, chat, ts), chat, now)
         == if 0 <= now - ts <= 3600 then Accepted(id) else Refused
  {
    var time := PrintInt(ts, 16);
    NoColon(ts, 16);
    ParseInverts(ts);
    SplitPayload(mac, chat, id, time);
    assert mac(Message(chat, id, time)) != "";
  }

  /** The payload carries, in this spelling, a fresh time and the MAC for this chat and session. */
  predicate Authentic(mac: Mac, data: string, chat: int, now: int, id: string, time: string) {
    && data == "rs:" + id + ":" + time + ":" + mac(PrintInt(chat, 10) + ":" + id + ":" + time)
    && id != "" && time != "" && NoColonIn(time)
    && match ParseHex(time) case Some(ts) => 0 <= now - ts <= 3600 case None => false
  }

  lemma PayloadIs(mac: Mac, chat: int, id: string, time: string)
    ensures Payload(mac, chat, id, time) == "rs:" + id + ":" + time + ":" + mac(PrintInt(chat, 10) + ":" + id + ":" + time)
  {
    assert ACTION + ":" == "rs:";
  }

  /** Nothing else is accepted: verification accepts exactly the fresh payloads signed for the chat. */
  lemma AcceptedIffAuthentic(mac: Mac, data: string, chat: int, now: int, id: string)
    requires HexMac(mac)
    ensures Verify(mac, data, chat, now) == Accepted(id) <==>
              exists time :: Authentic(mac, data, chat, now, id, time)
  {
    var (withoutSig, sig) := SplitLast(data);
    var (withoutTs, time) := SplitLast(withoutSig);
    LastRejoined(data);
    LastRejoined(withoutSig);
    FirstRejoined(withoutTs);
    if Verify(mac, data, chat, now) == Accepted(id) {
      assert withoutTs == ACTION + ":" + id;
      PayloadIs(mac, chat, id, time);
      assert Authentic(mac, data, chat, now, id, time);
    }
    if t :| Authentic(mac, data, chat, now, id, t) {
      PayloadIs(mac, chat, id, t);
      SplitPayload(mac, chat, id, t);
      assert mac(Message(chat, id, t)) != "";
    }
  }

  /** It raises only for a fresh payload whose signature is not ASCII. */
  lemma {:induction false} RaisesIff(mac: Mac, chat: int, id: string, time: string, sig: string, now: int)
    requires id != "" && time != "" && sig != "" && NoColonIn(time) && NoColonIn(sig)
    ensures Verify(mac, ACTION + ":" + id + ":" + time + ":" + sig, chat, now) == Raised <==>
              !IsAscii(sig) && match ParseHex(time) case Some(ts) => 0 <= now - ts <= 3600 case None => false
  {
    SplitLastJoined(ACTION + ":" + id + ":" + time, sig);
    SplitLastJoined(ACTION + ":" + id, time);
    SplitFirstJoined(ACTION, id);
  }

  /** Distinct chat, session and time never share a message, so a MAC fits one of them only. */
  lemma MessagesAreDistinct(chat1: int, id1: string, ts1: int, chat2: int, id2: string, ts2: int)
    requires Message(chat1, id1, PrintInt(ts1, 16)) == Message(chat2, id2, PrintInt(ts2, 16))
    ensures chat1 == chat2 && id1 == id2 && ts1 == ts2
  {
    var (t1, t2) := (PrintInt(ts1, 16), PrintInt(ts2, 16));
    NoColon(ts1, 16);
    NoColon(ts2, 16);
    SplitLastJoined(PrintInt(chat1, 10) + ":" + id1, t1);
    SplitLastJoined(PrintInt(chat2, 10) + ":" + id2, t2);
    NoColon(chat1, 10);
    NoColon(chat2, 10);
    SplitFirstJoined(PrintInt(chat1, 10), id1);
    SplitFirstJoined(PrintInt(chat2, 10), id2);
    PrintInjective(ts1, ts2, 16);
    PrintInjective(chat1, chat2, 10);
  }
}
