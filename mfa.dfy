/**
 * Second-factor helpers: single-use backup codes, the display format of
 * backup codes, and the in-memory e-mail one-time-password store with its
 * attempt limit and its per-hour send limit. Times are whole seconds on the
 * UTC clock, passed in by the caller; the random code is passed in too.
 */
module Mfa {
  import opened Common

  const OtpValidSeconds := 10 * 60
  const HourSeconds := 60 * 60
  const MaxAttempts := 5
  const MaxSendsPerHour := 3

  // ---------------------------------------------------------------- backup codes

  /** `list.remove(x)`: drops the first occurrence of `x`; the list is unchanged when there is none. */
  function RemoveFirst(xs: seq<string>, x: string): (r: seq<string>)
    ensures x in xs ==> |r| == |xs| - 1 && multiset(r) == multiset(xs) - multiset{x}
    ensures x !in xs ==> r == xs
    ensures forall y :: y in r ==> y in xs
  {
    if xs == [] then []
    else
      assert xs == [xs[0]] + xs[1..];
      if xs[0] == x then xs[1..] else [xs[0]] + RemoveFirst(xs[1..], x)
  }

  /**
   * `verify_backup_code` on the decoded list of stored hashes: an empty code
   * or an empty store fails; a code whose hash is stored succeeds and yields
   * the list without that one hash; anything else fails.
   */
  function VerifyBackupList(code: string, hashed: seq<string>, hash: string -> string): (r: (bool, Option<seq<string>>))
    ensures r.0 <==> code != "" && hash(code) in hashed
    ensures r.0 ==> r.1 == Some(RemoveFirst(hashed, hash(code)))
    ensures !r.0 ==> r.1 == None
  {
    if code == "" || hashed == [] then (false, None)
    else if hash(code) in hashed then (true, Some(RemoveFirst(hashed, hash(code))))
    else (false, None)
  }

  /**
   * `verify_backup_code` on the stored JSON text: `decode` is the JSON
   * parser (None when the text is not a list of strings, which the source
   * catches) and `encode` the serializer of the updated list.
   */
  function VerifyBackupCode(code: string, hashedJson: string, hash: string -> string,
                            decode: string -> Option<seq<string>>, encode: seq<string> -> string): (r: (bool, Option<string>))
    ensures r.0 <==> code != "" && hashedJson != "" && decode(hashedJson).Some? && hash(code) in decode(hashedJson).value
    ensures r.0 ==> r.1 == Some(encode(RemoveFirst(decode(hashedJson).value, hash(code))))
    ensures !r.0 ==> r.1 == None
  {
    if code == "" || hashedJson == "" then (false, None)
    else match decode(hashedJson)
      case None => (false, None)
      case Some(hashed) =>
        var (ok, rest) := VerifyBackupList(code, hashed, hash);
        if ok then (true, Some(encode(rest.value))) else (false, None)
  }

  /** A backup code stored once can be used once: the list it leaves behind rejects it. */
  lemma BackupCodeSingleUse(code: string, hashed: seq<string>, hash: string -> string)
    requires multiset(hashed)[hash(code)] == 1
    ensures VerifyBackupList(code, hashed, hash).0 == (code != "")
    ensures code != "" ==> !VerifyBackupList(code, VerifyBackupList(code, hashed, hash).1.value, hash).0
  {
    assert hash(code) in hashed;
    var rest := RemoveFirst(hashed, hash(code));
    assert multiset(rest)[hash(code)] == 0;
  }

  /** Using one backup code leaves every other stored code usable. */
  lemma OtherCodesSurvive(code: string, other: string, hashed: seq<string>, hash: string -> string)
    requires hash(code) in hashed && hash(other) in hashed && hash(other) != hash(code)
    ensures other != "" ==> VerifyBackupList(other, RemoveFirst(hashed, hash(code)), hash).0
  {
    var rest := RemoveFirst(hashed, hash(code));
    assert multiset(rest)[hash(other)] == multiset(hashed)[hash(other)];
  }

  // ---------------------------------------------------------------- display of backup codes

  /** The numbered lines `"{i+1}. {code}"`, numbering from `start`. */
  function DisplayLines(codes: seq<string>, start: nat): (lines: seq<string>)
    ensures |lines| == |codes|
    ensures forall i :: 0 <= i < |codes| ==> lines[i] == NatToString(start + i) + ". " + codes[i]
  {
    if codes == [] then [] else [NatToString(start) + ". " + codes[0]] + DisplayLines(codes[1..], start + 1)
  }

  /** `format_backup_codes_for_display` */
  function FormatBackupCodes(codes: seq<string>): string {
    Join("\n", DisplayLines(codes, 1))
  }

  lemma NoCharInConcat(a: string, b: string, c: char)
    requires !ContainsChar(a, c) && !ContainsChar(b, c)
    ensures !ContainsChar(a + b, c)
  {
    forall i | 0 <= i < |a + b| ensures (a + b)[i] != c {
      if i < |a| { assert (a + b)[i] == a[i]; } else { assert (a + b)[i] == b[i - |a|]; }
    }
  }

  /**
   * The display text is one line per code, in order, each numbered from 1;
   * splitting it on newlines recovers those lines when no code holds a newline.
   */
  lemma {:induction false} FormatBackupCodesLines(codes: seq<string>)
    requires |codes| >= 1
    requires forall c :: c in codes ==> !ContainsChar(c, '\n')
    ensures var lines := Split(FormatBackupCodes(codes), '\n');
      |lines| == |codes| && forall i :: 0 <= i < |codes| ==> lines[i] == NatToString(i + 1) + ". " + codes[i]
  {
    var lines := DisplayLines(codes, 1);
    forall l | l in lines ensures !ContainsChar(l, '\n') {
      var i :| 0 <= i < |lines| && lines[i] == l;
      var n := NatToString(1 + i);
      assert !ContainsChar(n, '\n') by {
        forall k | 0 <= k < |n| ensures n[k] != '\n' { assert IsDigit(n[k]); }
      }
      assert !ContainsChar(". ", '\n');
      NoCharInConcat(n, ". ", '\n');
      assert codes[i] in codes;
      NoCharInConcat(n + ". ", codes[i], '\n');
    }
    SplitJoin(lines, '\n');
  }

  // ---------------------------------------------------------------- e-mail one-time passwords

  /** One entry of `_otp_store`. */
  datatype OtpEntry = OtpEntry(code: string, expiry: int, attempts: nat, createdAt: int)

  /** `is_otp_expired`: strictly after the expiry instant. */
  predicate IsOtpExpired(expiry: int, now: int) {
    now > expiry
  }

  /** The send times strictly after `cutoff`, in their original order. */
  function Recent(times: seq<int>, cutoff: int): (r: seq<int>)
    ensures |r| <= |times|
    ensures forall t :: t in r ==> t in times && t > cutoff
    ensures forall t :: t in times && t > cutoff ==> t in r
  {
    if times == [] then [] else (if times[0] > cutoff then [times[0]] else []) + Recent(times[1..], cutoff)
  }

  lemma {:induction false} RecentConcat(a: seq<int>, b: seq<int>, cutoff: int)
    ensures Recent(a + b, cutoff) == Recent(a, cutoff) + Recent(b, cutoff)
    decreases |a|
  {
    if a == [] {
      assert a + b == b;
    } else {
      assert (a + b)[0] == a[0];
      assert (a + b)[1..] == a[1..] + b;
      RecentConcat(a[1..], b, cutoff);
    }
  }

  /** The history after a send at `now`: append, then keep the last hour. */
  function RecordSend(history: seq<int>, now: int): seq<int> {
    Recent(history + [now], now - HourSeconds)
  }

  /** The rate limit: fewer than three sends in the hour before `now`. */
  predicate UnderSendLimit(history: seq<int>, now: int) {
    |Recent(history, now - HourSeconds)| < MaxSendsPerHour
  }

  /** The send just recorded is the last entry of the pruned history. */
  lemma {:induction false} RecordSendEndsWithNow(history: seq<int>, now: int)
    ensures RecordSend(history, now) == Recent(history, now - HourSeconds) + [now]
  {
    RecentConcat(history, [now], now - HourSeconds);
    assert Recent([now], now - HourSeconds) == [now] by {
      assert [now][1..] == [];
    }
  }

  /** A history whose every time is after the cutoff is kept whole. */
  lemma {:induction false} RecentAllAfter(q: seq<int>, cutoff: int)
    requires forall k :: 0 <= k < |q| ==> q[k] > cutoff
    ensures Recent(q, cutoff) == q
  {
    if q != [] {
      RecentAllAfter(q[1..], cutoff);
    }
  }

  /** Pruning keeps a recent tail intact behind whatever it keeps of the older part. */
  lemma RecentKeepsTail(p: seq<int>, q: seq<int>, cutoff: int)
    requires forall k :: 0 <= k < |q| ==> q[k] > cutoff
    ensures Recent(p + q, cutoff) == Recent(p, cutoff) + q
  {
    RecentConcat(p, q, cutoff);
    RecentAllAfter(q, cutoff);
  }

  /** Recording a send keeps a tail of sends that are all within the hour. */
  lemma RecordSendKeeps(x: seq<int>, tail: seq<int>, t: int)
    requires forall k :: 0 <= k < |tail| ==> tail[k] > t - HourSeconds
    ensures RecordSend(x + tail, t) == Recent(x, t - HourSeconds) + (tail + [t])
  {
    assert (x + tail) + [t] == x + (tail + [t]);
    RecentKeepsTail(x, tail + [t], t - HourSeconds);
  }

  /** Three sends within one hour exhaust the allowance until the first of them is an hour old. */
  lemma ThreeSendsBlock(h: seq<int>, t1: int, t2: int, t3: int, now: int)
    requires t1 <= t2 <= t3 <= now < t1 + HourSeconds
    ensures !UnderSendLimit(RecordSend(RecordSend(RecordSend(h, t1), t2), t3), now)
  {
    var x1 := Recent(h, t1 - HourSeconds);
    var h1 := RecordSend(h, t1);
    assert h1 == x1 + [t1] by {
      assert h + [] == h;
      RecordSendKeeps(h, [], t1);
    }
    var x2 := Recent(x1, t2 - HourSeconds);
    var h2 := RecordSend(h1, t2);
    assert h2 == x2 + [t1, t2] by {
      RecordSendKeeps(x1, [t1], t2);
    }
    var x3 := Recent(x2, t3 - HourSeconds);
    var h3 := RecordSend(h2, t3);
    assert h3 == x3 + [t1, t2, t3] by {
      RecordSendKeeps(x2, [t1, t2], t3);
    }
    assert |Recent(h3, now - HourSeconds)| >= 3 by {
      RecentKeepsTail(x3, [t1, t2, t3], now - HourSeconds);
    }
  }

  /** A send more than an hour ago no longer counts against the limit. */
  lemma OldSendsExpire(h: seq<int>, t: int, now: int)
    requires now >= t + HourSeconds
    requires UnderSendLimit(h, now)
    ensures UnderSendLimit(h + [t], now)
  {
    RecentConcat(h, [t], now - HourSeconds);
    assert Recent([t], now - HourSeconds) == [] by { assert [t][1..] == []; }
    assert Recent(h, now - HourSeconds) + [] == Recent(h, now - HourSeconds);
  }

  /**
   * The decision `verify` takes on the store: the result and the store it
   * leaves behind. Only the entry of `email` can change.
   */
  function VerifyStep(store: map<string, OtpEntry>, email: string, code: string, now: int): (r: (bool, map<string, OtpEntry>))
    ensures email !in store ==> r == (false, store)
    ensures r.0 <==>
      (email in store && !IsOtpExpired(store[email].expiry, now)
       && store[email].attempts < MaxAttempts && store[email].code == code)
    ensures r.0 ==> email !in r.1
    ensures r.1 - {email} == store - {email}
    ensures email in r.1 ==>
      email in store && !r.0 && r.1[email] == store[email].(attempts := store[email].attempts + 1)
  {
    if email !in store then (false, store)
    else
      var entry := store[email];
      if IsOtpExpired(entry.expiry, now) then (false, store - {email})
      else if entry.attempts >= MaxAttempts then (false, store - {email})
      else if entry.code == code then (true, store - {email})
      else (false, store[email := entry.(attempts := entry.attempts + 1)])
  }

  /** Every entry's attempt counter is at most the limit. */
  ghost predicate AttemptsBounded(store: map<string, OtpEntry>) {
    forall e :: e in store ==> store[e].attempts <= MaxAttempts
  }

  /** `verify` keeps the attempt counters bounded. */
  lemma VerifyKeepsAttemptsBounded(store: map<string, OtpEntry>, email: string, code: string, now: int)
    requires AttemptsBounded(store)
    ensures AttemptsBounded(VerifyStep(store, email, code, now).1)
  {
    var r := VerifyStep(store, email, code, now).1;
    forall e | e in r ensures r[e].attempts <= MaxAttempts {
      if e != email {
        assert e in r - {email};
        assert r[e] == (store - {email})[e];
      }
    }
  }

  /** A freshly stored code verifies once, at any time up to its expiry, and then never again. */
  lemma FreshCodeVerifiesOnce(store: map<string, OtpEntry>, email: string, otp: string, created: int, now: int)
    requires now <= created + OtpValidSeconds
    ensures var s := store[email := OtpEntry(otp, created + OtpValidSeconds, 0, created)];
      var (ok, after) := VerifyStep(s, email, otp, now);
      ok && after == store - {email} && !VerifyStep(after, email, otp, now).0
  {
    var s := store[email := OtpEntry(otp, created + OtpValidSeconds, 0, created)];
    assert s - {email} == store - {email};
  }

  /** Five wrong codes lock the entry: the sixth attempt fails even with the right code. */
  lemma {:induction false} WrongCodesLockOut(store: map<string, OtpEntry>, email: string, otp: string, wrong: string, created: int, now: int)
    requires wrong != otp
    requires now <= created + OtpValidSeconds
    ensures var s0 := store[email := OtpEntry(otp, created + OtpValidSeconds, 0, created)];
      var s5 := VerifyStep(VerifyStep(VerifyStep(VerifyStep(VerifyStep(s0, email, wrong, now).1,
        email, wrong, now).1, email, wrong, now).1, email, wrong, now).1, email, wrong, now).1;
      !VerifyStep(s5, email, otp, now).0 && email !in VerifyStep(s5, email, otp, now).1
  {
    var s0 := store[email := OtpEntry(otp, created + OtpValidSeconds, 0, created)];
    var s1 := VerifyStep(s0, email, wrong, now).1;
    var s2 := VerifyStep(s1, email, wrong, now).1;
    var s3 := VerifyStep(s2, email, wrong, now).1;
    var s4 := VerifyStep(s3, email, wrong, now).1;
    var s5 := VerifyStep(s4, email, wrong, now).1;
    assert s1[email].attempts == 1;
    assert s2[email].attempts == 2;
    assert s3[email].attempts == 3;
    assert s4[email].attempts == 4;
    assert s5[email].attempts == 5;
  }

  /** `EmailOTPManager`: its class-level dictionaries become the fields of one store object. */
  class EmailOtpManager {
    /** `_otp_store`, keyed by e-mail address. */
    var otpStore: map<string, OtpEntry>
    /** `_send_history`, keyed by e-mail address. */
    var sendHistory: map<string, seq<int>>

    constructor()
      ensures otpStore == map[] && sendHistory == map[]
    {
      otpStore := map[];
      sendHistory := map[];
    }

    /**
     * `generate_and_store` with the random code `otp` and the clock reading
     * `now`: replaces any earlier entry, then records the send and prunes the
     * history to the last hour.
     */
    method GenerateAndStore(email: string, otp: string, now: int) returns (code: string)
      modifies this
      ensures code == otp
      ensures otpStore == old(otpStore)[email := OtpEntry(otp, now + OtpValidSeconds, 0, now)]
      ensures email in sendHistory
      ensures sendHistory == old(sendHistory)[email := RecordSend(if email in old(sendHistory) then old(sendHistory)[email] else [], now)]
    {
      otpStore := otpStore[email := OtpEntry(otp, now + OtpValidSeconds, 0, now)];
      if email !in sendHistory {
        sendHistory := sendHistory[email := []];
      }
      sendHistory := sendHistory[email := sendHistory[email] + [now]];
      sendHistory := sendHistory[email := Recent(sendHistory[email], now - HourSeconds)];
      code := otp;
    }

    /** `clear` */
    method Clear(email: string)
      modifies this
      ensures otpStore == old(otpStore) - {email}
      ensures sendHistory == old(sendHistory)
    {
      if email in otpStore {
        otpStore := otpStore - {email};
      }
    }

    /** `verify`: the steps of the source, with the store it leaves described by `VerifyStep`. */
    method Verify(email: string, code: string, now: int) returns (ok: bool)
      modifies this
      ensures (ok, otpStore) == VerifyStep(old(otpStore), email, code, now)
      ensures sendHistory == old(sendHistory)
    {
      if email !in otpStore {
        return false;
      }
      var entry := otpStore[email];
      if IsOtpExpired(entry.expiry, now) {
        Clear(email);
        return false;
      }
      if entry.attempts >= MaxAttempts {
        Clear(email);
        return false;
      }
      entry := entry.(attempts := entry.attempts + 1);
      otpStore := otpStore[email := entry];
      if entry.code == code {
        Clear(email);
        assert otpStore == old(otpStore) - {email};
        return true;
      }
      ok := false;
    }

    /** `can_send`: reads the history and changes nothing. */
    function CanSend(email: string, now: int): (r: bool)
      reads this
      ensures email !in sendHistory ==> r
      ensures email in sendHistory ==> (r <==> UnderSendLimit(sendHistory[email], now))
    {
      email !in sendHistory || UnderSendLimit(sendHistory[email], now)
    }
  }
}
