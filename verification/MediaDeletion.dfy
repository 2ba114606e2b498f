/** The completion of recorded deletions (internal/api/media_deletion.go). */
module MediaDeletion {
  import opened Options
  import opened Paths
  import opened Decimals
  import opened UploadPaths
  import opened Uploads
  import opened UploadSteps
  import opened UploadRuns
  import opened UploadStore
  import opened UploadHandlers

  const INT64_LIMIT := 0x8000_0000_0000_0000

  /** `strconv.ParseInt(s, 10, 64)` gives a positive number. */
  predicate ParsesPositive(s: string)
  {
    var digits := if s != "" && s[0] == '+' then s[1..] else s;
    digits != "" && (forall c | c in digits :: Decimals.IsDigit(c)) && 1 <= Decimals.Value(digits) < INT64_LIMIT
  }

  /** The check of the stored path before anything is removed. */
  predicate Removable(path: string)
  {
    var parts := Split(path);
    && |parts| == 2 && "user-" <= parts[0] && parts[1] != "" && '\\' !in path && ':' !in path
    && parts[1] != ".." && parts[1] != "." && ParsesPositive(parts[0][5..])
  }

  predicate Deletable(p: Path)
  {
    p.Flat? && 1 <= p.owner < INT64_LIMIT && '\\' !in p.name && ':' !in p.name && p.name != "." && p.name != ".."
  }

  /** A file directly in the directory of a numbered user, with a name that is no special one anywhere. */
  ghost predicate PlainFlat(p: Path)
  {
    p.Flat? && 0 < p.owner <= 0x7fff_ffff_ffff_ffff && (forall x | x in p.name :: x != '\\' && x != ':') && p.name !in {".", ".."}
  }

  lemma RootIsPlain(owner: nat)
    ensures '\\' !in UserRoot(owner) && ':' !in UserRoot(owner)
    ensures "user-" <= UserRoot(owner) && UserRoot(owner)[5..] == Decimal(owner)
  {
  }

  lemma OwnerParses(owner: nat)
    ensures ParsesPositive(Decimal(owner)) <==> 1 <= owner < INT64_LIMIT
  {
    ReadsBack(owner);
    var s := Decimal(owner);
    assert Decimals.IsDigit(s[0]);
  }

  /** Only the two-segment layout is ever deleted: an original in the layout of `managedOriginalPath` is refused. */
  lemma RemovableExactly(p: Path)
    requires UploadPaths.Valid(p)
    ensures p.Flat? || p.Managed? ==> (Removable(Text(p)) <==> Deletable(p))
    ensures p.Flat? || p.Managed? ==> (Removable(Text(p)) <==> PlainFlat(p))
  {
    SplitText(p);
    if p.Flat? {
      RootIsPlain(p.owner);
      OwnerParses(p.owner);
      assert Parts(p) == [UserRoot(p.owner), p.name];
      JoinSnoc([UserRoot(p.owner)], p.name);
      assert [UserRoot(p.owner)] + [p.name] == Parts(p);
    }
  }

  /** The deletions that a pass completes. */
  function Doomed(st: State): set<nat>
  {
    set a | a in st.intents && a in st.assets && Deletable(st.assets[a].path)
  }

  function PathsOf(st: State, s: set<nat>): set<Path>
    requires s <= st.assets.Keys
  {
    set a | a in s :: st.assets[a].path
  }

  /** The originals of `gone` are removed, and also the rows of `done`. */
  function Purged(st: State, done: set<nat>, gone: set<nat>): State
    requires gone <= st.assets.Keys
  {
    st.(sessions := map id | id in st.sessions && st.sessions[id].asset !in done :: st.sessions[id],
        assets := st.assets - done, jobs := st.jobs - done, intents := st.intents - done, files := st.files - PathsOf(st, gone))
  }

  /** What an undisturbed pass does. */
  function Pass(st: State): State { Purged(st, Doomed(st), Doomed(st)) }

  /** Another pass finds nothing to do. */
  lemma PassIsIdempotent(st: State)
    ensures Pass(Pass(st)) == Pass(st)
  {
    assert Doomed(Pass(st)) == {};
    assert Pass(Pass(st)).files == Pass(st).files;
  }

  /** After any number of passes, a deletion is pending exactly if its path has another shape, and then its original is still there. */
  lemma PassLeaves(c: Config, st: State, a: nat)
    requires Assets(c, st) && a in st.intents
    ensures a in Pass(st).intents <==> !Deletable(st.assets[a].path)
    ensures Deletable(st.assets[a].path) <==> PlainFlat(st.assets[a].path)
    ensures !Deletable(st.assets[a].path) ==>
              && a in Pass(st).assets && Pass(st).assets[a] == st.assets[a]
              && (st.assets[a].path in st.files ==> st.assets[a].path in Pass(st).files)
    ensures Deletable(st.assets[a].path) ==>
              && a !in Pass(st).assets && st.assets[a].path !in Pass(st).files
              && forall id | id in Pass(st).sessions :: Pass(st).sessions[id].asset != a
  {
    forall b | b in Doomed(st) ensures st.assets[b].path == st.assets[a].path ==> b == a {
      assert SamePath(st, a, b) <==> st.assets[a].path == st.assets[b].path;
    }
  }

  lemma DoomedIsExpendable(c: Config, st: State, done: set<nat>, gone: set<nat>, a: nat)
    requires Inv(c, st) && gone <= Doomed(st) && done <= gone && a in Doomed(st) && a !in done
    ensures Expendable(Purged(st, done, gone), st.assets[a].path)
    ensures Without(Purged(st, done, gone), st.assets[a].path) == Purged(st, done, gone + {a})
  {
    hide Sessions;
    hide Origins;
    hide Files;
    var now := Purged(st, done, gone);
    forall b | b in now.assets && now.assets[b].path == st.assets[a].path ensures b in now.intents {
      assert SamePath(st, a, b);
    }
    assert PathsOf(st, gone + {a}) == PathsOf(st, gone) + {st.assets[a].path};
    assert Without(now, st.assets[a].path).files == Purged(st, done, gone + {a}).files;
  }

  lemma DoomedRowGoes(st: State, done: set<nat>, gone: set<nat>, a: nat)
    requires gone <= Doomed(st) && done <= gone && a in gone && a !in done
    ensures CanDeleteRow(Purged(st, done, gone), a)
    ensures RowDeleted(Purged(st, done, gone), a) == Purged(st, done + {a}, gone)
  {
    var now, next := Purged(st, done, gone), Purged(st, done + {a}, gone);
    assert st.assets[a].path in PathsOf(st, gone);
    assert RowDeleted(now, a).sessions == next.sessions;
    assert RowDeleted(now, a).assets == next.assets;
  }

  /** One deletion: the original, then the row with what names it. */
  method DeleteOne(server: UploadServer, ghost st: State, ghost done: set<nat>, ghost gone: set<nat>, a: nat, p: Path, healthy: bool)
    returns (ok: bool, ghost done': set<nat>, ghost gone': set<nat>)
    requires Inv(server.c, st) && done <= gone <= Doomed(st) && a in Doomed(st) && a !in done && p == st.assets[a].path
    requires server.Valid() && server.Store() == Purged(st, done, gone)
    modifies server
    ensures server.Valid() && (healthy ==> ok) && done <= done' <= done + {a} && gone <= gone' <= gone + {a} && done' <= gone'
    ensures server.Store() == Purged(st, done', gone')
    ensures ok ==> done' == done + {a} && gone' == gone + {a}
  {
    hide Inv;
    hide Run;
    hide Expendable;
    hide CanDeleteRow;
    hide RowDeleted;
    hide Purged;
    hide Without;
    DoomedIsExpendable(server.c, st, done, gone, a);
    done', gone' := done, gone;
    ok := server.RemoveFile(p, healthy);
    if server.Store() != Purged(st, done, gone) || ok { gone' := gone + {a}; }
    if !ok { return; }
    DoomedRowGoes(st, done, gone', a);
    ok := server.DeleteRow(a, healthy);
    if server.Store() != Purged(st, done, gone') || ok { done' := done + {a}; }
  }

  lemma PurgedNothing(st: State)
    ensures Purged(st, {}, {}) == st
  {
    assert Purged(st, {}, {}).sessions == st.sessions;
    assert Purged(st, {}, {}).files == st.files;
  }

  /** The deletions of plain flat originals are over, and the others still wait with what they have. */
  ghost predicate PassDone(st: State, next: State)
  {
    forall a | a in st.intents && a in st.assets ::
      var p := st.assets[a].path;
      if PlainFlat(p) then a !in next.assets && a !in next.intents && p !in next.files
      else a in next.assets && a in next.intents && (p in st.files ==> p in next.files)
  }

  lemma PassIsDone(c: Config, st: State)
    requires Inv(c, st)
    ensures PassDone(st, Pass(st))
  {
    hide Sessions;
    hide Origins;
    hide Files;
    hide AssetOk;
    forall a | a in st.intents && a in st.assets
      ensures var p, next := st.assets[a].path, Pass(st);
              if PlainFlat(p) then a !in next.assets && a !in next.intents && p !in next.files
              else a in next.assets && a in next.intents && (p in st.files ==> p in next.files)
    {
      PassLeaves(c, st, a);
    }
  }

  /** `finishMediaDeletions`: a deletion that fails does not stop the others. */
  method FinishMediaDeletions(server: UploadServer, healthy: bool) returns (crashed: bool, ghost done: set<nat>, ghost gone: set<nat>)
    requires server.Valid()
    modifies server
    ensures server.Valid() && (healthy ==> !crashed)
    ensures done <= gone <= Doomed(old(server.Store())) && server.Store() == Purged(old(server.Store()), done, gone)
    ensures healthy ==> server.Store() == Pass(old(server.Store()))
    ensures healthy ==> PassDone(old(server.Store()), server.Store())
  {
    hide Inv;
    hide Run;
    hide Purged;
    hide PassDone;
    ghost var st := server.Store();
    server.Holds();
    done, gone := {}, {};
    PurgedNothing(st);
    var rows := server.assets;
    var rest := set a | a in server.intents && a in rows;
    while rest != {}
      invariant server.Valid() && done <= gone <= Doomed(st) && server.Store() == Purged(st, done, gone)
      invariant rest <= st.intents && rest <= rows.Keys && rest !! done
      invariant healthy ==> done == gone && Doomed(st) <= done + rest
      decreases |rest|
    {
      var a :| a in rest;
      rest := rest - {a};
      var p := rows[a].path;
      if Deletable(p) {
        var ok;
        ok, done, gone := DeleteOne(server, st, done, gone, a, p, healthy);
        if !ok {
          var stops: bool := *;
          if stops { return true, done, gone; }
        }
      }
    }
    crashed := false;
    assert healthy ==> done == Doomed(st);
    PassIsDone(server.c, st);
  }
}
