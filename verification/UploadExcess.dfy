/** How requests that the server accepts take a user over the limits in the second in which a session expires. */
module UploadExcess {
  import opened Options
  import opened FileNames
  import opened Totals
  import opened UploadPaths
  import opened Uploads
  import opened UploadSteps
  import opened UploadRuns
  import opened UploadLimits
  import Hex
  import ManagedFolders

  function Empty(): State
  {
    State(map[], map[], {}, {}, map[], map[], 0, 1, map[], map[], {})
  }

  /** An identifier for each number below a hundred, also used as a client key. */
  function Token(n: nat): string
    requires n < 100
  {
    seq(50, _ => '4') + [Hex.DIGITS[n / 10], Hex.DIGITS[n % 10]]
  }

  lemma TokenIsValid(n: nat)
    requires n < 100
    ensures ValidId(Token(n)) && forall x | x in "\0\r\n" :: x !in Token(n)
  {
    var t := Token(n);
    assert Hex.DIGITS[4] == '4';
    forall c | c in t ensures Hex.IsDigit(c) {
      var i :| 0 <= i < |t| && t[i] == c;
      assert Hex.DIGITS[n / 10] in Hex.DIGITS && Hex.DIGITS[n % 10] in Hex.DIGITS;
    }
    forall x | x in "\0\r\n" ensures x !in t {
      assert !Hex.IsDigit(x);
    }
  }

  lemma DigitsDiffer(i: nat, j: nat)
    requires i < 10 && j < 10 && Hex.DIGITS[i] == Hex.DIGITS[j]
    ensures i == j
  {
  }

  lemma TokensDiffer(m: nat, n: nat)
    requires m < 100 && n < 100 && Token(m) == Token(n)
    ensures m == n
  {
    assert Token(m)[50] == Hex.DIGITS[m / 10] && Token(m)[51] == Hex.DIGITS[m % 10];
    assert Token(n)[50] == Hex.DIGITS[n / 10] && Token(n)[51] == Hex.DIGITS[n % 10];
    DigitsDiffer(m / 10, n / 10);
    DigitsDiffer(m % 10, n % 10);
  }

  /** A one-byte file, otherwise like `r`. */
  function Tiny(r: Request, n: nat): Request
    requires n < 100
  {
    r.(key := Token(n), size := 1, keep := true)
  }

  function TinySession(uid: nat, r: Request, n: nat, now: int): Session
    requires n < 100 && ManagedFolders.UploadPath(uid, r.folder).Some?
  {
    NewSession(uid, Tiny(r, n), 0, now)
  }

  lemma TinyIsFromRequest(c: Config, uid: nat, r: Request, n: nat, now: int)
    requires ValidRequest(c, uid, r) && n < 100
    ensures ValidRequest(c, uid, Tiny(r, n)) && FromRequest(c, TinySession(uid, r, n, now)) && ValidExt(TinySession(uid, r, n, now).ext)
  {
    TokenIsValid(n);
    FormatIsValid(r.filename);
    var s := TinySession(uid, r, n, now);
    assert ValidRequest(c, uid, Tiny(r, n));
    assert s == NewSession(s.owner, Tiny(r, n), s.asset, s.updated);
  }

  ghost predicate OfNumber(id: string, s: Session, done: nat)
  {
    exists n: nat | n < done && n < 100 :: id == Token(n) && s.key == Token(n)
  }

  /** A run that started sessions with the numbers below `done`, each for one byte, and nothing else but waited. */
  ghost predicate Prepared(c: Config, st: State, run: seq<Action>, done: nat)
  {
    && Run(c, Empty(), run) == Some(st) && Onwards(c, Empty(), run) && Inv(c, st)
    && st.assets == map[] && st.quarantine == map[]
    && (forall n: nat | done <= n < 100 :: Token(n) !in st.used)
    && (forall id | id in st.sessions :: st.sessions[id].phase == Uploading && OfNumber(id, st.sessions[id], done))
  }

  /** What the limits count. */
  ghost predicate Amounts(c: Config, uid: nat, st: State, m: nat)
  {
    Load(c, st, uid) == m && |Reserved(c, st, uid)| == m
  }

  lemma OnwardsSnoc(c: Config, st: State, run: seq<Action>, x: Action)
    requires Run(c, st, run).Some? && Enabled(c, Run(c, st, run).value, x)
    requires Onwards(c, st, run) && Onward(Run(c, st, run).value, x)
    ensures Run(c, st, run + [x]) == Some(After(c, Run(c, st, run).value, x)) && Onwards(c, st, run + [x])
  {
    hide Enabled;
    hide After;
    hide Run;
    hide Onward;
    RunSnoc(c, st, run, x);
    forall k | 0 <= k < |run + [x]| ensures Onward(At(c, st, run + [x], k), (run + [x])[k]) {
      assert (run + [x])[..k] == run[..k];
      if k == |run| {
        assert run[..k] == run;
      } else {
        assert Onward(At(c, st, run, k), run[k]);
      }
    }
  }

  lemma StartLoad(c: Config, st: State, id: string, s: Session, m: nat)
    requires c.retention > 0 && id !in st.sessions && s.phase == Uploading && s.updated == st.now && s.size == 1
    requires Amounts(c, s.owner, st, m)
    ensures Amounts(c, s.owner, Uploads.Started(st, id, s), m + 1)
  {
    hide Reservations;
    hide Stored;
    hide KeptSizes;
    ReservedWith(st.sessions, Cutoff(c, st), id, s, s.owner);
  }

  lemma CanStartTiny(c: Config, uid: nat, r: Request, st: State, run: seq<Action>, done: nat, m: nat)
    requires c.retention > 0 && ValidRequest(c, uid, r) && done < 100
    requires Prepared(c, st, run, done) && Amounts(c, uid, st, m) && m < ACTIVE_LIMIT && m < c.quota(uid)
    ensures CanStart(c, st, Token(done), TinySession(uid, r, done, st.now))
  {
    hide Inv;
    hide Run;
    hide Onwards;
    hide ValidId;
    hide ValidExt;
    hide FromRequest;
    hide Token;
    hide Load;
    hide Reservations;
    TokenIsValid(done);
    TinyIsFromRequest(c, uid, r, done, st.now);
    forall i | i in st.sessions ensures st.sessions[i].key != Token(done) {
      var n: nat :| n < done && n < 100 && i == Token(n) && st.sessions[i].key == Token(n);
      if Token(n) == Token(done) { TokensDiffer(n, done); }
    }
  }

  lemma NewTokenIsNew(c: Config, st: State, id: string)
    requires Inv(c, st) && id !in st.used
    ensures id !in st.sessions
  {
    NewIdIsNew(c, st, id);
  }

  lemma StartOne(c: Config, uid: nat, r: Request, st: State, run: seq<Action>, done: nat, m: nat) returns (next: State, more: seq<Action>)
    requires c.retention > 0 && ValidRequest(c, uid, r) && done < 100
    requires Prepared(c, st, run, done) && Amounts(c, uid, st, m) && m < ACTIVE_LIMIT && m < c.quota(uid)
    ensures Prepared(c, next, more, done + 1) && Amounts(c, uid, next, m + 1)
    ensures next == Uploads.Started(st, Token(done), TinySession(uid, r, done, st.now))
  {
    hide Inv;
    hide Run;
    hide Onwards;
    hide CanStart;
    hide Token;
    hide Amounts;
    var id, s := Token(done), TinySession(uid, r, done, st.now);
    CanStartTiny(c, uid, r, st, run, done, m);
    NewTokenIsNew(c, st, id);
    next, more := Uploads.Started(st, id, s), run + [Start(id, s)];
    OnwardsSnoc(c, Empty(), run, Start(id, s));
    InvStep(c, st, Start(id, s));
    StartLoad(c, st, id, s, m);
    forall n: nat | done + 1 <= n < 100 ensures Token(n) !in next.used {
      if Token(n) == id { TokensDiffer(n, done); }
    }
    forall i | i in next.sessions ensures OfNumber(i, next.sessions[i], done + 1) {
      if i != id { assert OfNumber(i, st.sessions[i], done); }
    }
  }

  lemma TokenWasNew(c: Config, st: State, run: seq<Action>, done: nat)
    requires Prepared(c, st, run, done) && done < 100
    ensures Token(done) !in st.sessions
  {
    hide Inv;
    NewTokenIsNew(c, st, Token(done));
  }

  /** `count` more one-byte sessions. */
  lemma {:induction false} StartMany(c: Config, uid: nat, r: Request, st: State, run: seq<Action>, done: nat, m: nat, count: nat)
    returns (next: State, more: seq<Action>)
    requires c.retention > 0 && ValidRequest(c, uid, r) && done + count <= 100
    requires Prepared(c, st, run, done) && Amounts(c, uid, st, m) && m + count <= ACTIVE_LIMIT && m + count <= c.quota(uid)
    ensures Prepared(c, next, more, done + count) && Amounts(c, uid, next, m + count) && next.now == st.now
    ensures forall id | id in st.sessions :: id in next.sessions && next.sessions[id] == st.sessions[id]
    ensures forall id | id in next.sessions && id !in st.sessions :: next.sessions[id].updated == st.now
    ensures count > 0 ==> Token(done) in next.sessions && next.sessions[Token(done)] == TinySession(uid, r, done, st.now)
    ensures next.files == st.files && (forall id | id in st.acked && id in st.sessions :: id in next.acked && next.acked[id] == st.acked[id])
    ensures count > 0 ==> Token(done) in next.acked && next.acked[Token(done)] == []
    decreases count
  {
    hide Prepared;
    hide Amounts;
    hide Token;
    hide ValidRequest;
    if count == 0 {
      next, more := st, run;
    } else {
      var mid, part := StartOne(c, uid, r, st, run, done, m);
      TokenWasNew(c, st, run, done);
      next, more := StartMany(c, uid, r, mid, part, done + 1, m + 1, count - 1);
    }
  }

  /** When the first batch is as old as sessions may become, it reserves nothing, and its chunks are still accepted. */
  lemma GoIdle(c: Config, uid: nat, st: State, run: seq<Action>, done: nat) returns (next: State, more: seq<Action>)
    requires Prepared(c, st, run, done) && st.now == 0 && forall id | id in st.sessions :: st.sessions[id].updated == 0
    ensures Prepared(c, next, more, done) && Amounts(c, uid, next, 0) && next == Later(st, c.retention)
  {
    hide Inv;
    hide Run;
    hide Onwards;
    hide Token;
    next, more := Later(st, c.retention), run + [Wait(c.retention)];
    OnwardsSnoc(c, Empty(), run, Wait(c.retention));
    InvStep(c, st, Wait(c.retention));
    assert Reserved(c, next, uid) == map[] && Stored(next.assets, next.intents, uid) == map[] && KeptSizes(next.quarantine, uid) == map[];
  }

  lemma NothingPrepared(c: Config, uid: nat)
    ensures Prepared(c, Empty(), [], 0) && Amounts(c, uid, Empty(), 0)
  {
    FreshInv(c, Empty());
    hide Inv;
    var e := Empty();
    assert Reserved(c, e, uid) == map[] && Stored(e.assets, e.intents, uid) == map[] && KeptSizes(e.quarantine, uid) == map[];
  }

  /** The first byte of a session arrives: three effects of one request. */
  lemma FirstByte(c: Config, st: State, run: seq<Action>, done: nat, id: string, byte: Byte)
    returns (full: State, next: State, more: seq<Action>)
    requires Prepared(c, st, run, done) && id in st.sessions && id in st.acked && st.acked[id] == [] && Part(id) !in st.files
    requires st.sessions[id].received == 0 && st.sessions[id].size == 1 && st.sessions[id].updated == Cutoff(c, st)
    ensures Run(c, Empty(), more) == Some(next) && Onwards(c, Empty(), more)
    ensures CanAck(c, full, id, [byte]) && next == Acked(full, id, [byte]) && full == st.(files := full.files)
  {
    hide Inv;
    hide Run;
    hide Onwards;
    hide Token;
    var created := WithPart(st, id, []);
    OnwardsSnoc(c, Empty(), run, WritePart(id, []));
    full := WithPart(created, id, [byte]);
    OnwardsSnoc(c, Empty(), run + [WritePart(id, [])], WritePart(id, [byte]));
    more := run + [WritePart(id, [])] + [WritePart(id, [byte])] + [Ack(id, [byte])];
    next := Acked(full, id, [byte]);
    OnwardsSnoc(c, Empty(), run + [WritePart(id, [])] + [WritePart(id, [byte])], Ack(id, [byte]));
  }

  lemma SameAmounts(c: Config, st: State, next: State, uid: nat, m: nat)
    requires next == st.(files := next.files) && Amounts(c, uid, st, m)
    ensures Amounts(c, uid, next, m)
  {
  }

  /** As many sessions as the limits allow, and in the second in which these expire as many again. */
  lemma TwoBatches(c: Config, uid: nat, r: Request, m: nat) returns (st: State, run: seq<Action>)
    requires c.retention > 0 && ValidRequest(c, uid, r) && 0 < m <= ACTIVE_LIMIT && m <= c.quota(uid)
    ensures Prepared(c, st, run, m + m) && Amounts(c, uid, st, m) && st.now == c.retention && st.files == map[]
    ensures Token(0) in st.sessions && st.sessions[Token(0)] == TinySession(uid, r, 0, 0)
    ensures Token(0) in st.acked && st.acked[Token(0)] == []
  {
    hide Token;
    hide Prepared;
    hide Amounts;
    hide ValidRequest;
    hide TinySession;
    NothingPrepared(c, uid);
    var first, run1 := StartMany(c, uid, r, Empty(), [], 0, 0, m);
    var idle, run2 := GoIdle(c, uid, first, run1, m);
    st, run := StartMany(c, uid, r, idle, run2, m, 0, m);
  }

  lemma FullIsFull(c: Config, full: State, uid: nat, m: nat, id: string)
    requires Amounts(c, uid, full, m) && m <= ACTIVE_LIMIT && m <= c.quota(uid) && (m == ACTIVE_LIMIT || m == c.quota(uid))
    requires id in full.sessions && full.sessions[id].owner == uid && full.sessions[id].size == 1
    ensures WithinLimits(c, full, uid) && !Room(c, full, uid, 1)
  {
  }

  /**
   Whatever the configuration, if any request of a user passes the checks at
   all, sessions for one-byte files of that format take the user over a limit:
   as many as the limits allow, then, in the second in which these expire, as
   many again, and then one more byte for one of the first, which is accepted.
   */
  lemma ExpirySecondExceeds(c: Config, uid: nat, r: Request, byte: Byte)
    requires c.retention > 0 && c.quota(uid) > 0 && ValidRequest(c, uid, r)
    ensures exists run :: Run(c, Empty(), run).Some? && Onwards(c, Empty(), run) && !WithinLimits(c, Run(c, Empty(), run).value, uid)
  {
    hide Run;
    hide Onwards;
    hide Token;
    hide Prepared;
    hide Amounts;
    hide Load;
    hide WithinLimits;
    hide ValidRequest;
    hide CanAck;
    var m: nat := if c.quota(uid) < ACTIVE_LIMIT then c.quota(uid) else ACTIVE_LIMIT;
    var st, run := TwoBatches(c, uid, r, m);
    var id := Token(0);
    var full, end, more := FirstByte(c, st, run, m + m, id, byte);
    SameAmounts(c, st, full, uid, m);
    FullIsFull(c, full, uid, m, id);
    ChunkKeepsLimits(c, full, id, [byte]);
  }
}
