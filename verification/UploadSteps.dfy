/** Every effect on the upload store keeps its invariant. */
module UploadSteps {
  import opened Options
  import opened UploadPaths
  import opened Uploads

  lemma OtherStarted(c: Config, st: State, id: string, s: Session, j: string)
    requires Inv(c, st) && id !in st.used && j in st.sessions
    ensures j != id && SessionOk(c, Started(st, id, s), j) && DestFree(Started(st, id, s), j)
  {
    hide Assets;
    hide Origins;
    hide Files;
    assert SessionOk(c, st, j) && DestFree(st, j);
  }

  lemma NewStarted(c: Config, st: State, id: string, s: Session)
    requires Inv(c, st) && CanStart(c, st, id, s)
    ensures SessionOk(c, Started(st, id, s), id) && DestFree(Started(st, id, s), id)
  {
    hide FromRequest;
    hide Sessions;
    hide Origins;
    hide Load;
    hide Reservations;
    hide Cutoff;
    assert Part(id) !in st.files && Dest(id, s) !in st.files;
    assert forall a | a in st.assets :: AssetOk(c, st, a);
  }

  lemma SessionsStarted(c: Config, st: State, id: string, s: Session)
    requires Inv(c, st) && CanStart(c, st, id, s)
    ensures Sessions(c, Started(st, id, s))
  {
    hide Inv;
    hide SessionOk;
    hide DestFree;
    hide FromRequest;
    var next := Started(st, id, s);
    forall j | j in next.sessions ensures SessionOk(c, next, j) && DestFree(next, j) {
      if j == id {
        NewStarted(c, st, id, s);
      } else {
        OtherStarted(c, st, id, s, j);
      }
    }
  }

  lemma AssetsStarted(c: Config, st: State, id: string, s: Session)
    requires Inv(c, st) && CanStart(c, st, id, s)
    ensures Assets(c, Started(st, id, s))
  {
    hide FromRequest;
    hide Sessions;
    hide Origins;
    hide Files;
    hide Load;
    hide Reservations;
    hide Cutoff;
    hide Matches;
  }

  lemma OriginsStarted(c: Config, st: State, id: string, s: Session)
    requires Inv(c, st) && CanStart(c, st, id, s)
    ensures Origins(Started(st, id, s))
  {
    hide FromRequest;
    hide Sessions;
    hide Assets;
    hide Files;
    hide Load;
    hide Reservations;
    hide Cutoff;
    hide Matches;
  }

  lemma FilesStarted(c: Config, st: State, id: string, s: Session)
    requires Inv(c, st) && CanStart(c, st, id, s)
    ensures Files(Started(st, id, s))
  {
    hide FromRequest;
    hide Sessions;
    hide Assets;
    hide Origins;
    hide Load;
    hide Reservations;
    hide Cutoff;
    hide Matches;
  }

  lemma InvStarted(c: Config, st: State, id: string, s: Session)
    requires Inv(c, st) && CanStart(c, st, id, s)
    ensures Inv(c, Started(st, id, s))
  {
    hide Sessions;
    hide Assets;
    hide Origins;
    hide Files;
    SessionsStarted(c, st, id, s);
    AssetsStarted(c, st, id, s);
    OriginsStarted(c, st, id, s);
    FilesStarted(c, st, id, s);
  }

  lemma SessionsWithPart(c: Config, st: State, id: string, bytes: Bytes)
    requires Inv(c, st) && CanWritePart(st, id, bytes)
    ensures Sessions(c, WithPart(st, id, bytes))
  {
    hide Assets;
    hide Origins;
    hide Files;
  }

  lemma AssetsOriginsWithPart(c: Config, st: State, id: string, bytes: Bytes)
    requires Inv(c, st) && CanWritePart(st, id, bytes)
    ensures Assets(c, WithPart(st, id, bytes)) && Origins(WithPart(st, id, bytes))
  {
    hide Sessions;
    hide Files;
  }

  lemma FilesWithPart(c: Config, st: State, id: string, bytes: Bytes)
    requires Inv(c, st) && CanWritePart(st, id, bytes)
    ensures Files(WithPart(st, id, bytes))
  {
    hide Assets;
    hide Origins;
  }

  lemma InvWithPart(c: Config, st: State, id: string, bytes: Bytes)
    requires Inv(c, st) && CanWritePart(st, id, bytes)
    ensures Inv(c, WithPart(st, id, bytes))
  {
    hide Sessions;
    hide Assets;
    hide Origins;
    hide Files;
    SessionsWithPart(c, st, id, bytes);
    AssetsOriginsWithPart(c, st, id, bytes);
    FilesWithPart(c, st, id, bytes);
  }

  lemma SessionsDamaged(c: Config, st: State, id: string, left: nat)
    requires Inv(c, st) && CanDamage(st, id, left)
    ensures Sessions(c, Damaged(st, id, left))
  {
    hide Assets;
    hide Origins;
    hide Files;
  }

  lemma RestDamaged(c: Config, st: State, id: string, left: nat)
    requires Inv(c, st) && CanDamage(st, id, left)
    ensures Assets(c, Damaged(st, id, left)) && Origins(Damaged(st, id, left)) && Files(Damaged(st, id, left))
  {
    hide Sessions;
  }

  lemma InvDamaged(c: Config, st: State, id: string, left: nat)
    requires Inv(c, st) && CanDamage(st, id, left)
    ensures Inv(c, Damaged(st, id, left))
  {
    hide Sessions;
    hide Assets;
    hide Origins;
    hide Files;
    SessionsDamaged(c, st, id, left);
    RestDamaged(c, st, id, left);
  }

  lemma SessionsAcked(c: Config, st: State, id: string, data: Bytes)
    requires Inv(c, st) && CanAck(c, st, id, data)
    ensures Sessions(c, Acked(st, id, data))
  {
    hide Assets;
    hide Origins;
    hide Files;
  }

  lemma RestAcked(c: Config, st: State, id: string, data: Bytes)
    requires Inv(c, st) && CanAck(c, st, id, data)
    ensures Assets(c, Acked(st, id, data)) && Origins(Acked(st, id, data)) && Files(Acked(st, id, data))
  {
    hide Sessions;
  }

  lemma InvAcked(c: Config, st: State, id: string, data: Bytes)
    requires Inv(c, st) && CanAck(c, st, id, data)
    ensures Inv(c, Acked(st, id, data))
  {
    hide Sessions;
    hide Assets;
    hide Origins;
    hide Files;
    SessionsAcked(c, st, id, data);
    RestAcked(c, st, id, data);
  }

  lemma SessionsHashed(c: Config, st: State, a: nat)
    requires Inv(c, st) && a in st.assets && st.assets[a].path in st.files
    ensures Sessions(c, Hashed(c, st, a))
  {
    hide Origins;
    hide Files;
  }

  lemma RestHashed(c: Config, st: State, a: nat)
    requires Inv(c, st) && a in st.assets && st.assets[a].path in st.files
    ensures Assets(c, Hashed(c, st, a)) && Origins(Hashed(c, st, a)) && Files(Hashed(c, st, a))
  {
    hide Sessions;
  }

  lemma InvHashed(c: Config, st: State, a: nat)
    requires Inv(c, st) && a in st.assets && st.assets[a].path in st.files
    ensures Inv(c, Hashed(c, st, a))
  {
    hide Sessions;
    hide Assets;
    hide Origins;
    hide Files;
    SessionsHashed(c, st, a);
    RestHashed(c, st, a);
  }

  lemma SessionsMarkedDuplicate(c: Config, st: State, id: string, a: nat)
    requires Inv(c, st) && CanMarkDuplicate(c, st, id, a)
    ensures Sessions(c, MarkedDuplicate(st, id, a))
  {
    hide Assets;
    hide Origins;
    hide Files;
  }

  lemma AssetsMarkedDuplicate(c: Config, st: State, id: string, a: nat)
    requires Inv(c, st) && CanMarkDuplicate(c, st, id, a)
    ensures Assets(c, MarkedDuplicate(st, id, a))
  {
    hide Sessions;
    hide Origins;
    hide Files;
  }

  lemma OriginsMarkedDuplicate(c: Config, st: State, id: string, a: nat)
    requires Inv(c, st) && CanMarkDuplicate(c, st, id, a)
    ensures Origins(MarkedDuplicate(st, id, a))
  {
    hide Assets;
    hide Files;
  }

  lemma FilesMarkedDuplicate(c: Config, st: State, id: string, a: nat)
    requires Inv(c, st) && CanMarkDuplicate(c, st, id, a)
    ensures Files(MarkedDuplicate(st, id, a))
  {
    hide Sessions;
    hide Assets;
    hide Origins;
  }

  lemma InvMarkedDuplicate(c: Config, st: State, id: string, a: nat)
    requires Inv(c, st) && CanMarkDuplicate(c, st, id, a)
    ensures Inv(c, MarkedDuplicate(st, id, a))
  {
    hide Sessions;
    hide Assets;
    hide Origins;
    hide Files;
    SessionsMarkedDuplicate(c, st, id, a);
    AssetsMarkedDuplicate(c, st, id, a);
    OriginsMarkedDuplicate(c, st, id, a);
    FilesMarkedDuplicate(c, st, id, a);
  }

  lemma SessionsMarkedCommitting(c: Config, st: State, id: string)
    requires Inv(c, st) && CanMarkCommitting(c, st, id)
    ensures Sessions(c, MarkedCommitting(st, id))
  {
    hide Assets;
    hide Origins;
    hide Files;
  }

  lemma AssetsMarkedCommitting(c: Config, st: State, id: string)
    requires Inv(c, st) && CanMarkCommitting(c, st, id)
    ensures Assets(c, MarkedCommitting(st, id))
  {
    hide Sessions;
    hide Origins;
    hide Files;
  }

  lemma OriginsMarkedCommitting(c: Config, st: State, id: string)
    requires Inv(c, st) && CanMarkCommitting(c, st, id)
    ensures Origins(MarkedCommitting(st, id))
  {
    hide Assets;
    hide Files;
  }

  lemma FilesMarkedCommitting(c: Config, st: State, id: string)
    requires Inv(c, st) && CanMarkCommitting(c, st, id)
    ensures Files(MarkedCommitting(st, id))
  {
    hide Sessions;
    hide Assets;
    hide Origins;
  }

  lemma InvMarkedCommitting(c: Config, st: State, id: string)
    requires Inv(c, st) && CanMarkCommitting(c, st, id)
    ensures Inv(c, MarkedCommitting(st, id))
  {
    hide Sessions;
    hide Assets;
    hide Origins;
    hide Files;
    SessionsMarkedCommitting(c, st, id);
    AssetsMarkedCommitting(c, st, id);
    OriginsMarkedCommitting(c, st, id);
    FilesMarkedCommitting(c, st, id);
  }

  lemma SessionsRenamedPart(c: Config, st: State, id: string)
    requires Inv(c, st) && CanRenamePart(st, id)
    ensures Sessions(c, Renamed(st, Part(id), Dest(id, st.sessions[id])))
  {
    hide Origins;
    hide Files;
  }

  lemma AssetsOriginsRenamedPart(c: Config, st: State, id: string)
    requires Inv(c, st) && CanRenamePart(st, id)
    ensures Assets(c, Renamed(st, Part(id), Dest(id, st.sessions[id])))
    ensures Origins(Renamed(st, Part(id), Dest(id, st.sessions[id])))
  {
    hide Files;
  }

  lemma FilesRenamedPart(c: Config, st: State, id: string)
    requires Inv(c, st) && CanRenamePart(st, id)
    ensures Files(Renamed(st, Part(id), Dest(id, st.sessions[id])))
  {
    hide Assets;
    hide Origins;
  }

  lemma InvRenamedPart(c: Config, st: State, id: string)
    requires Inv(c, st) && CanRenamePart(st, id)
    ensures Inv(c, Renamed(st, Part(id), Dest(id, st.sessions[id])))
  {
    hide Sessions;
    hide Assets;
    hide Origins;
    hide Files;
    SessionsRenamedPart(c, st, id);
    AssetsOriginsRenamedPart(c, st, id);
    FilesRenamedPart(c, st, id);
  }

  lemma SessionsFinalised(c: Config, st: State, id: string)
    requires Inv(c, st) && CanFinalise(st, id)
    ensures Sessions(c, Finalised(st, id))
  {
    hide Origins;
    hide Files;
  }

  lemma AssetsFinalised(c: Config, st: State, id: string)
    requires Inv(c, st) && CanFinalise(st, id)
    ensures Assets(c, Finalised(st, id))
  {
    hide Origins;
    hide Files;
  }

  lemma OriginsFinalised(c: Config, st: State, id: string)
    requires Inv(c, st) && CanFinalise(st, id)
    ensures Origins(Finalised(st, id))
  {
    hide Files;
  }

  lemma FilesFinalised(c: Config, st: State, id: string)
    requires Inv(c, st) && CanFinalise(st, id)
    ensures Files(Finalised(st, id))
  {
    hide Sessions;
    hide Assets;
    hide Origins;
  }

  lemma InvFinalised(c: Config, st: State, id: string)
    requires Inv(c, st) && CanFinalise(st, id)
    ensures Inv(c, Finalised(st, id))
  {
    hide Sessions;
    hide Assets;
    hide Origins;
    hide Files;
    SessionsFinalised(c, st, id);
    AssetsFinalised(c, st, id);
    OriginsFinalised(c, st, id);
    FilesFinalised(c, st, id);
  }

  lemma SessionsWithout(c: Config, st: State, p: Path)
    requires Inv(c, st) && Expendable(st, p)
    ensures Sessions(c, Without(st, p))
  {
    hide Assets;
    hide Origins;
    hide Files;
  }

  lemma RestWithout(c: Config, st: State, p: Path)
    requires Inv(c, st) && Expendable(st, p)
    ensures Assets(c, Without(st, p)) && Origins(Without(st, p)) && Files(Without(st, p))
  {
    hide Sessions;
  }

  lemma InvWithout(c: Config, st: State, p: Path)
    requires Inv(c, st) && Expendable(st, p)
    ensures Inv(c, Without(st, p))
  {
    hide Sessions;
    hide Assets;
    hide Origins;
    hide Files;
    SessionsWithout(c, st, p);
    RestWithout(c, st, p);
  }

  lemma SessionsForgotten(c: Config, st: State, id: string)
    requires Inv(c, st) && CanForget(st, id)
    ensures Sessions(c, Forgotten(st, id))
  {
    hide Assets;
    hide Origins;
    hide Files;
  }

  lemma RestForgotten(c: Config, st: State, id: string)
    requires Inv(c, st) && CanForget(st, id)
    ensures Assets(c, Forgotten(st, id)) && Origins(Forgotten(st, id)) && Files(Forgotten(st, id))
  {
    hide Sessions;
  }

  lemma InvForgotten(c: Config, st: State, id: string)
    requires Inv(c, st) && CanForget(st, id)
    ensures Inv(c, Forgotten(st, id))
  {
    hide Sessions;
    hide Assets;
    hide Origins;
    hide Files;
    SessionsForgotten(c, st, id);
    RestForgotten(c, st, id);
  }

  lemma SessionsWithTemp(c: Config, st: State, p: Path, bytes: Bytes)
    requires Inv(c, st) && CanWriteTemp(st, p)
    ensures Sessions(c, WithFile(st, p, bytes))
  {
    hide Origins;
    hide Files;
  }

  lemma RestWithTemp(c: Config, st: State, p: Path, bytes: Bytes)
    requires Inv(c, st) && CanWriteTemp(st, p)
    ensures Assets(c, WithFile(st, p, bytes)) && Origins(WithFile(st, p, bytes)) && Files(WithFile(st, p, bytes))
  {
    hide Sessions;
  }

  lemma InvWithTemp(c: Config, st: State, p: Path, bytes: Bytes)
    requires Inv(c, st) && CanWriteTemp(st, p)
    ensures Inv(c, WithFile(st, p, bytes))
  {
    hide Sessions;
    hide Assets;
    hide Origins;
    hide Files;
    SessionsWithTemp(c, st, p, bytes);
    RestWithTemp(c, st, p, bytes);
  }

  lemma SessionsDrawn(c: Config, st: State, id: string)
    requires Inv(c, st)
    ensures Sessions(c, Drawn(st, id))
  {
    hide Assets;
    hide Origins;
    hide Files;
  }

  lemma RestDrawn(c: Config, st: State, id: string)
    requires Inv(c, st)
    ensures Assets(c, Drawn(st, id)) && Origins(Drawn(st, id)) && Files(Drawn(st, id))
  {
    hide Sessions;
  }

  lemma InvDrawn(c: Config, st: State, id: string)
    requires Inv(c, st)
    ensures Inv(c, Drawn(st, id))
  {
    hide Sessions;
    hide Assets;
    hide Origins;
    hide Files;
    SessionsDrawn(c, st, id);
    RestDrawn(c, st, id);
  }

  lemma SessionsRenamedTemp(c: Config, st: State, p: Path, q: Path)
    requires Inv(c, st) && CanRenameTemp(st, p, q)
    ensures Sessions(c, Renamed(st, p, q))
  {
    hide Origins;
    hide Files;
  }

  lemma AssetsOriginsRenamedTemp(c: Config, st: State, p: Path, q: Path)
    requires Inv(c, st) && CanRenameTemp(st, p, q)
    ensures Assets(c, Renamed(st, p, q)) && Origins(Renamed(st, p, q))
  {
    hide Sessions;
    hide Files;
  }

  lemma FilesRenamedTemp(c: Config, st: State, p: Path, q: Path)
    requires Inv(c, st) && CanRenameTemp(st, p, q)
    ensures Files(Renamed(st, p, q))
  {
    hide Assets;
    hide Origins;
  }

  lemma InvRenamedTemp(c: Config, st: State, p: Path, q: Path)
    requires Inv(c, st) && CanRenameTemp(st, p, q)
    ensures Inv(c, Renamed(st, p, q))
  {
    hide Sessions;
    hide Assets;
    hide Origins;
    hide Files;
    SessionsRenamedTemp(c, st, p, q);
    AssetsOriginsRenamedTemp(c, st, p, q);
    FilesRenamedTemp(c, st, p, q);
  }

  lemma SessionsInserted(c: Config, st: State, q: Path)
    requires Inv(c, st) && CanInsert(c, st, q)
    ensures Sessions(c, Inserted(st, q))
  {
    hide Origins;
    hide Files;
    hide Load;
    hide Reservations;
    hide Cutoff;
  }

  lemma AssetsInserted(c: Config, st: State, q: Path)
    requires Inv(c, st) && CanInsert(c, st, q)
    ensures Assets(c, Inserted(st, q))
  {
    hide Sessions;
    hide Origins;
    hide Files;
    hide Load;
    hide Reservations;
    hide Cutoff;
  }

  lemma OriginsInserted(c: Config, st: State, q: Path)
    requires Inv(c, st) && CanInsert(c, st, q)
    ensures Origins(Inserted(st, q))
  {
    hide Sessions;
    hide Files;
    hide Load;
    hide Reservations;
    hide Cutoff;
  }

  lemma FilesInserted(c: Config, st: State, q: Path)
    requires Inv(c, st) && CanInsert(c, st, q)
    ensures Files(Inserted(st, q))
  {
    hide Sessions;
    hide Assets;
    hide Origins;
    hide Load;
    hide Reservations;
    hide Cutoff;
  }

  lemma InvInserted(c: Config, st: State, q: Path)
    requires Inv(c, st) && CanInsert(c, st, q)
    ensures Inv(c, Inserted(st, q))
  {
    hide Sessions;
    hide Assets;
    hide Origins;
    hide Files;
    SessionsInserted(c, st, q);
    AssetsInserted(c, st, q);
    OriginsInserted(c, st, q);
    FilesInserted(c, st, q);
  }

  lemma SessionsTrashed(c: Config, st: State, a: nat, at: int)
    requires Inv(c, st) && a in st.assets
    ensures Sessions(c, Trashed(st, a, at))
  {
    hide Assets;
    hide Origins;
    hide Files;
  }

  lemma RestTrashed(c: Config, st: State, a: nat, at: int)
    requires Inv(c, st) && a in st.assets
    ensures Assets(c, Trashed(st, a, at)) && Origins(Trashed(st, a, at)) && Files(Trashed(st, a, at))
  {
    hide Sessions;
  }

  lemma InvTrashed(c: Config, st: State, a: nat, at: int)
    requires Inv(c, st) && a in st.assets
    ensures Inv(c, Trashed(st, a, at))
  {
    hide Sessions;
    hide Assets;
    hide Origins;
    hide Files;
    SessionsTrashed(c, st, a, at);
    RestTrashed(c, st, a, at);
  }

  lemma SessionsIntended(c: Config, st: State, a: nat)
    requires Inv(c, st) && a in st.assets
    ensures Sessions(c, Intended(st, a))
  {
    hide Assets;
    hide Origins;
    hide Files;
  }

  lemma RestIntended(c: Config, st: State, a: nat)
    requires Inv(c, st) && a in st.assets
    ensures Assets(c, Intended(st, a)) && Origins(Intended(st, a)) && Files(Intended(st, a))
  {
    hide Sessions;
  }

  lemma InvIntended(c: Config, st: State, a: nat)
    requires Inv(c, st) && a in st.assets
    ensures Inv(c, Intended(st, a))
  {
    hide Sessions;
    hide Assets;
    hide Origins;
    hide Files;
    SessionsIntended(c, st, a);
    RestIntended(c, st, a);
  }

  lemma SessionsRowDeleted(c: Config, st: State, a: nat)
    requires Inv(c, st) && CanDeleteRow(st, a)
    ensures Sessions(c, RowDeleted(st, a))
  {
    hide Origins;
    hide Files;
  }

  lemma AssetsRowDeleted(c: Config, st: State, a: nat)
    requires Inv(c, st) && CanDeleteRow(st, a)
    ensures Assets(c, RowDeleted(st, a))
  {
    hide Sessions;
    hide Origins;
    hide Files;
  }

  lemma OriginsRowDeleted(c: Config, st: State, a: nat)
    requires Inv(c, st) && CanDeleteRow(st, a)
    ensures Origins(RowDeleted(st, a))
  {
    hide Files;
  }

  lemma FilesRowDeleted(c: Config, st: State, a: nat)
    requires Inv(c, st) && CanDeleteRow(st, a)
    ensures Files(RowDeleted(st, a))
  {
    hide Sessions;
    hide Assets;
    hide Origins;
  }

  lemma InvRowDeleted(c: Config, st: State, a: nat)
    requires Inv(c, st) && CanDeleteRow(st, a)
    ensures Inv(c, RowDeleted(st, a))
  {
    hide Sessions;
    hide Assets;
    hide Origins;
    hide Files;
    SessionsRowDeleted(c, st, a);
    AssetsRowDeleted(c, st, a);
    OriginsRowDeleted(c, st, a);
    FilesRowDeleted(c, st, a);
  }

  lemma SessionsRecorded(c: Config, st: State, p: Path, r: Record)
    requires Inv(c, st)
    ensures Sessions(c, Recorded(st, p, r))
  {
    hide Assets;
    hide Origins;
    hide Files;
  }

  lemma RestRecorded(c: Config, st: State, p: Path, r: Record)
    requires Inv(c, st)
    ensures Assets(c, Recorded(st, p, r)) && Origins(Recorded(st, p, r)) && Files(Recorded(st, p, r))
  {
    hide Sessions;
  }

  lemma InvRecorded(c: Config, st: State, p: Path, r: Record)
    requires Inv(c, st)
    ensures Inv(c, Recorded(st, p, r))
  {
    hide Sessions;
    hide Assets;
    hide Origins;
    hide Files;
    SessionsRecorded(c, st, p, r);
    RestRecorded(c, st, p, r);
  }

  lemma SessionsQuarantined(c: Config, st: State, p: Path)
    requires Inv(c, st) && CanQuarantine(st, p)
    ensures Sessions(c, Renamed(st, p, Kept(p.owner, p.name)))
  {
    hide Origins;
    hide Files;
  }

  lemma AssetsQuarantined(c: Config, st: State, p: Path)
    requires Inv(c, st) && CanQuarantine(st, p)
    ensures Assets(c, Renamed(st, p, Kept(p.owner, p.name)))
  {
    hide Sessions;
    hide Origins;
    hide Files;
  }

  lemma RestQuarantined(c: Config, st: State, p: Path)
    requires Inv(c, st) && CanQuarantine(st, p)
    ensures Origins(Renamed(st, p, Kept(p.owner, p.name)))
    ensures Files(Renamed(st, p, Kept(p.owner, p.name)))
  {
    hide Sessions;
    hide Assets;
  }

  lemma InvQuarantined(c: Config, st: State, p: Path)
    requires Inv(c, st) && CanQuarantine(st, p)
    ensures Inv(c, Renamed(st, p, Kept(p.owner, p.name)))
  {
    hide Sessions;
    hide Assets;
    hide Origins;
    hide Files;
    SessionsQuarantined(c, st, p);
    AssetsQuarantined(c, st, p);
    RestQuarantined(c, st, p);
  }

  lemma SessionsLater(c: Config, st: State, now: int)
    requires Inv(c, st)
    ensures Sessions(c, Later(st, now))
  {
    hide Assets;
    hide Origins;
    hide Files;
  }

  lemma RestLater(c: Config, st: State, now: int)
    requires Inv(c, st)
    ensures Assets(c, Later(st, now)) && Origins(Later(st, now)) && Files(Later(st, now))
  {
    hide Sessions;
  }

  lemma InvLater(c: Config, st: State, now: int)
    requires Inv(c, st)
    ensures Inv(c, Later(st, now))
  {
    hide Sessions;
    hide Assets;
    hide Origins;
    hide Files;
    SessionsLater(c, st, now);
    RestLater(c, st, now);
  }
}
