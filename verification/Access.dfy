/** Who may see which media (internal/access/access.go): the predicates that every query is built from. */
module Access {
  import opened Paths
  import opened Decimals
  import UploadPaths

  const UPLOADS := "arkiv-uploads"

  /** The reader of a request; `publicAlbum` is set instead of an account for a public link. */
  datatype User = User(id: int, admin: bool, publicAlbum: int)

  datatype Account = Account(admin: bool, enabled: bool)

  datatype Asset = Asset(library: string, path: string, folder: string, trashedAt: int)

  datatype Grant = Grant(user: int, library: string, folder: string)

  datatype Member = Member(album: int, user: int, startsAt: int, expiresAt: int)

  datatype Shared = Shared(album: int, asset: nat, addedBy: int)

  /** `personal` maps a user and an asset to whether the removal was made permanent. */
  datatype State = State(assets: map<nat, Asset>, deletions: set<nat>, personal: map<(int, nat), bool>,
                         grants: set<Grant>, accounts: map<int, Account>, albums: map<int, int>,
                         members: set<Member>, shared: set<Shared>, enabled: set<string>, now: int)

  predicate Granted(s: State, user: int, a: Asset)
  {
    exists g | g in s.grants :: g.user == user && g.library == a.library && Covers(g.folder, a.folder)
  }

  predicate Direct(s: State, u: User, a: Asset)
  {
    u.id >= 1 && a.trashedAt == 0 && (u.admin || Granted(s, u.id, a))
  }

  predicate AlbumVisible(s: State, u: User, album: int)
    requires album in s.albums
  {
    if u.publicAlbum > 0 then album == u.publicAlbum
    else if u.id < 1 then false
    else
      || u.admin || s.albums[album] == u.id
      || exists m | m in s.members :: m.album == album && m.user == u.id && m.startsAt <= s.now && (m.expiresAt == 0 || m.expiresAt > s.now)
  }

  predicate Enabled(s: State, user: int) { user in s.accounts && s.accounts[user].enabled }

  /** Some album shows the asset: its owner and the one who added it are enabled, and the latter may still see it. */
  predicate InAlbum(s: State, u: User, id: nat)
    requires id in s.assets
  {
    exists x | x in s.shared ::
      && x.asset == id && x.album in s.albums && Enabled(s, s.albums[x.album]) && Enabled(s, x.addedBy)
      && AlbumVisible(s, u, x.album)
      && (s.accounts[x.addedBy].admin || Granted(s, x.addedBy, s.assets[id]))
  }

  predicate VisibleBase(s: State, u: User, id: nat)
    requires id in s.assets
  {
    (u.id >= 1 || u.publicAlbum != 0) && s.assets[id].trashedAt == 0 && (Direct(s, u, s.assets[id]) || InAlbum(s, u, id))
  }

  predicate Visible(s: State, u: User, id: nat)
  {
    && id in s.assets && VisibleBase(s, u, id) && id !in s.deletions
    && (u.id > 0 && u.publicAlbum == 0 ==> (u.id, id) !in s.personal)
  }

  /** The user's storage prefix never changes, whatever folder the asset is shown in. */
  predicate Manage(s: State, u: User, id: nat)
  {
    && u.id >= 1 && u.publicAlbum == 0 && id in s.assets && id !in s.deletions
    && s.assets[id].library == UPLOADS && UserRoot(u.id) + "/" <= s.assets[id].path
  }

  predicate Trash(s: State, u: User, id: nat)
  {
    && u.id >= 1 && u.publicAlbum == 0 && id in s.assets && id !in s.deletions
    && (|| (s.assets[id].trashedAt > 0 && Manage(s, u, id))
        || (VisibleBase(s, u, id) && (u.id, id) in s.personal && !s.personal[(u.id, id)]))
  }

  predicate ReadFile(s: State, u: User, id: nat)
  {
    Visible(s, u, id) || Manage(s, u, id) || Trash(s, u, id)
  }

  /** A recorded deletion hides the asset from everybody, in every list and for every file request. */
  lemma DeletionHides(s: State, u: User, id: nat)
    requires id in s.deletions
    ensures !Visible(s, u, id) && !Manage(s, u, id) && !Trash(s, u, id) && !ReadFile(s, u, id)
  {
  }

  /** At most one user manages an asset. */
  lemma OneManager(s: State, u: User, v: User, id: nat)
    requires Manage(s, u, id) && Manage(s, v, id)
    ensures u.id == v.id
  {
    var p := s.assets[id].path;
    SameFirst(UserRoot(u.id), UserRoot(v.id), p);
    UserRootsDiffer(u.id, v.id);
  }

  /** Of the stored originals, a user manages exactly those in their own directory, in either layout. */
  lemma ManagesOwnFiles(s: State, u: User, id: nat, p: UploadPaths.Path)
    requires UploadPaths.Valid(p) && id in s.assets && s.assets[id].library == "arkiv-uploads" && s.assets[id].path == UploadPaths.Text(p)
    ensures Manage(s, u, id) <==>
              u.id >= 1 && u.publicAlbum == 0 && id !in s.deletions && (p.Managed? || p.Flat?) && p.owner == u.id
  {
    if u.id >= 1 { UploadPaths.OwnerByPrefix(p, u.id); }
  }

  /** A grant on the asset's library that covers its folder shows it, unless it is in the trash or the user removed it. */
  lemma GrantShows(s: State, u: User, id: nat, g: Grant)
    requires u.id >= 1 && u.publicAlbum == 0 && id in s.assets && s.assets[id].trashedAt == 0 && id !in s.deletions
    requires g in s.grants && g.user == u.id && g.library == s.assets[id].library
    requires g.folder == "" || s.assets[id].folder == g.folder || g.folder + "/" <= s.assets[id].folder
    ensures Visible(s, u, id) <==> (u.id, id) !in s.personal
  {
  }

  /** A membership that has begun and not ended shows what a publisher with access added to the album. */
  lemma MembershipShows(s: State, u: User, id: nat, x: Shared, m: Member)
    requires u.id >= 1 && u.publicAlbum == 0 && id in s.assets && s.assets[id].trashedAt == 0 && id !in s.deletions
    requires x in s.shared && x.asset == id && x.album in s.albums && Enabled(s, s.albums[x.album]) && Enabled(s, x.addedBy)
    requires s.accounts[x.addedBy].admin || Granted(s, x.addedBy, s.assets[id])
    requires m in s.members && m.album == x.album && m.user == u.id && m.startsAt <= s.now && (m.expiresAt == 0 || s.now < m.expiresAt)
    ensures Visible(s, u, id) <==> (u.id, id) !in s.personal
  {
  }

  /** The user has an open door to this album: as its owner, or by a membership that has begun and not ended. */
  ghost predicate Belongs(s: State, user: int, album: int)
  {
    || (album in s.albums && s.albums[album] == user)
    || exists m | m in s.members :: m.album == album && m.user == user && m.startsAt <= s.now && (m.expiresAt == 0 || s.now < m.expiresAt)
  }

  /**
   Without a grant on that library for the folder or one above it, and without
   a place in an album with the asset, a user who is no administrator sees nothing:
   grants on other libraries and folders and memberships that are over do not help.
   */
  lemma StrangersSeeNothing(s: State, u: User, id: nat)
    requires u.publicAlbum <= 0 && !u.admin && id in s.assets
    requires forall g | g in s.grants && g.user == u.id && g.library == s.assets[id].library ::
               g.folder != "" && s.assets[id].folder != g.folder && !(g.folder + "/" <= s.assets[id].folder)
    requires forall x | x in s.shared && x.asset == id :: !Belongs(s, u.id, x.album)
    ensures !Visible(s, u, id)
  {
    if u.id >= 1 {
      forall x | x in s.shared && x.asset == id && x.album in s.albums ensures !AlbumVisible(s, u, x.album) {
        assert !Belongs(s, u.id, x.album);
      }
    }
  }

  /** A public link shows what its own album shows, and no more. */
  lemma PublicLinkShowsItsAlbum(s: State, u: User, id: nat)
    requires u.publicAlbum > 0 && u.id < 1
    ensures Visible(s, u, id) ==>
              && id in s.assets && s.assets[id].trashedAt == 0
              && exists x | x in s.shared :: x.asset == id && x.album == u.publicAlbum
    ensures !Manage(s, u, id) && !Trash(s, u, id)
  {
  }

  /** An album shows only what the one who added it may see now, and only while the accounts of both are enabled. */
  lemma AlbumsShowWhatPublishersSee(s: State, u: User, id: nat)
    requires u.publicAlbum > 0 && u.id < 1 && Visible(s, u, id)
    ensures exists x | x in s.shared ::
              && x.asset == id && x.album in s.albums && Enabled(s, s.albums[x.album]) && Enabled(s, x.addedBy)
              && (|| s.accounts[x.addedBy].admin
                  || exists g | g in s.grants ::
                       && g.user == x.addedBy && g.library == s.assets[id].library
                       && (g.folder == "" || s.assets[id].folder == g.folder || g.folder + "/" <= s.assets[id].folder))
  {
  }

  /** Outside of their trash, nobody sees more than they are allowed to: the trash of a user is disjoint from the rest. */
  lemma TrashIsApart(s: State, u: User, id: nat)
    ensures !(Visible(s, u, id) && Trash(s, u, id))
  {
  }
}
