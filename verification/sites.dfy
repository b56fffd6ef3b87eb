/**
 * `config/HubotSite.java`: a configured bot endpoint, its copy, the cascade
 * that resolves the site a job uses (enclosing folders nearest-first, then
 * the global list), and the validation prefix of the site form.
 */
module Sites {
  import opened Wrappers
  import opened Platform
  import opened JavaText
  import opened Notifications
  import opened Common

  /** Every field of a `HubotSite`, as a value. */
  datatype SiteValue = SiteValue(
    defaultSite: bool,
    name: Option<string>,
    url: Option<Url>,
    room: Option<string>,
    roomPrefix: Option<string>,
    failOnError: bool,
    useFolderName: bool,
    notifications: Option<seq<Config>>)

  /**
   * What `clone` makes of a site: it goes through the annotated constructor,
   * so the name is normalised by `fixEmpty`; every other field is copied,
   * the notification rules included.
   */
  function Cloned(v: SiteValue): (r: SiteValue)
    ensures r.name == FixEmpty(v.name)
    ensures r.(name := v.name) == v
  {
    v.(name := FixEmpty(v.name))
  }

  /** A site that was built through the constructor is copied exactly. */
  lemma CloneOfNormalisedIsExact(v: SiteValue)
    requires FixEmpty(v.name) == v.name
    ensures Cloned(v) == v
  {
  }

  /** A configured site; the search and the listener only ever change copies. */
  class HubotSite {
    var defaultSite: bool
    var name: Option<string>
    var url: Option<Url>
    var room: Option<string>
    var roomPrefix: Option<string>
    var failOnError: bool
    var useFolderName: bool
    var notifications: Option<seq<Config>>

    function Value(): SiteValue
      reads this
    {
      SiteValue(defaultSite, name, url, room, roomPrefix, failOnError, useFolderName, notifications)
    }

    /** The annotated constructor, which also backs the builder: an empty name becomes `null`. */
    constructor (defaultSite: bool, name: Option<string>, url: Option<Url>, room: Option<string>,
                 roomPrefix: Option<string>, failOnError: bool, useFolderName: bool,
                 notifications: Option<seq<Config>>)
      ensures Value() == SiteValue(defaultSite, FixEmpty(name), url, room, roomPrefix,
                                   failOnError, useFolderName, notifications)
    {
      this.defaultSite := defaultSite;
      this.name := FixEmpty(name);
      this.url := url;
      this.room := room;
      this.roomPrefix := roomPrefix;
      this.failOnError := failOnError;
      this.useFolderName := useFolderName;
      this.notifications := notifications;
    }

    /** `clone`: a new object, the original untouched. */
    method Clone() returns (c: HubotSite)
      ensures fresh(c)
      ensures c.Value() == Cloned(Value())
    {
      c := new HubotSite(defaultSite, name, url, room, roomPrefix, failOnError, useFolderName, notifications);
    }

    method SetRoom(room: Option<string>)
      modifies this
      ensures Value() == old(Value()).(room := room)
    {
      this.room := room;
    }

    method SetRoomPrefix(roomPrefix: Option<string>)
      modifies this
      ensures Value() == old(Value()).(roomPrefix := roomPrefix)
    {
      this.roomPrefix := roomPrefix;
    }

    method SetFailOnError(failOnError: bool)
      modifies this
      ensures Value() == old(Value()).(failOnError := failOnError)
    {
      this.failOnError := failOnError;
    }
  }

  function Values(sites: seq<HubotSite>): (r: seq<SiteValue>)
    reads sites
    ensures |r| == |sites|
    ensures forall k :: 0 <= k < |sites| ==> r[k] == sites[k].Value()
  {
    if sites == [] then [] else Values(sites[..|sites| - 1]) + [sites[|sites| - 1].Value()]
  }

  // ------------------------------------------------------------ job context

  /**
   * One enclosing item group of a job, nearest first: a folder with its
   * name and the sites of its folder property (no property, or a property
   * without sites, is the empty list), or any other group.
   */
  datatype Scope<S> = Folder(folderName: string, sites: seq<S>) | OtherGroup

  /** The job property: `siteNames` and `enableNotifications`. */
  datatype JobProperty = JobProperty(siteNames: Option<string>, enableNotifications: bool)

  /** A job: its optional property and its enclosing groups, nearest first. */
  datatype Job<S> = Job(property: Option<JobProperty>, ancestors: seq<Scope<S>>)

  /** Every stored site reachable through the enclosing folders. */
  function Stored(scopes: seq<Scope<HubotSite>>): set<HubotSite> {
    if scopes == [] then {}
    else Stored(scopes[..|scopes| - 1]) + StoredIn(scopes[|scopes| - 1])
  }

  function StoredIn(scope: Scope<HubotSite>): set<HubotSite> {
    if scope.Folder? then set s | s in scope.sites else {}
  }

  /** The enclosing groups with every stored site read as a value. */
  function Snapshot(scopes: seq<Scope<HubotSite>>): (r: seq<Scope<SiteValue>>)
    reads Stored(scopes)
    ensures |r| == |scopes|
    ensures forall k :: 0 <= k < |scopes| ==> r[k] == SnapshotScope(scopes[k])
  {
    if scopes == [] then []
    else Snapshot(scopes[..|scopes| - 1]) + [SnapshotScope(scopes[|scopes| - 1])]
  }

  function SnapshotScope(scope: Scope<HubotSite>): Scope<SiteValue>
    reads StoredIn(scope)
  {
    match scope
    case Folder(n, sites) => Folder(n, Values(sites))
    case OtherGroup => OtherGroup
  }

  // --------------------------------------------------- resolution, as values

  /** A folder site as the search offers it: a copy whose room is the folder's name under `useFolderName`. */
  function FolderCandidate(v: SiteValue, folderName: string): SiteValue {
    var c := Cloned(v);
    if c.useFolderName then c.(room := Some(folderName)) else c
  }

  function ScopeCandidates(scope: Scope<SiteValue>): seq<SiteValue> {
    match scope
    case Folder(n, sites) => seq(|sites|, k requires 0 <= k < |sites| => FolderCandidate(sites[k], n))
    case OtherGroup => []
  }

  /** The folder sites in search order: nearest folder first, each folder's sites in order. */
  function FolderCandidates(scopes: seq<Scope<SiteValue>>): seq<SiteValue> {
    if scopes == [] then []
    else FolderCandidates(scopes[..|scopes| - 1]) + ScopeCandidates(scopes[|scopes| - 1])
  }

  /** The name of the nearest enclosing folder, whatever its property holds. */
  function NearestFolderName(scopes: seq<Scope<SiteValue>>): Option<string> {
    if scopes == [] then None
    else if scopes[0].Folder? then Some(scopes[0].folderName)
    else NearestFolderName(scopes[1..])
  }

  /** A global site as the search offers it: its room is the nearest folder's name under `useFolderName`, if there is a folder. */
  function GlobalCandidate(v: SiteValue, folderName: Option<string>): SiteValue {
    var c := Cloned(v);
    if v.useFolderName && folderName.Some? then c.(room := folderName) else c
  }

  function GlobalCandidates(globals: seq<SiteValue>, folderName: Option<string>): seq<SiteValue> {
    seq(|globals|, k requires 0 <= k < |globals| => GlobalCandidate(globals[k], folderName))
  }

  /**
   * Reading the name of an unnamed site during a by-name search throws, and
   * the exception ends the whole search.
   */
  predicate Stops(c: SiteValue, siteName: Option<string>) {
    siteName.Some? && c.name.None?
  }

  /** A by-name search takes a case-insensitive name match; otherwise a default site. */
  predicate Selects(c: SiteValue, siteName: Option<string>) {
    if siteName.Some? then c.name.Some? && EqualsIgnoreCase(c.name.value, siteName.value)
    else c.defaultSite
  }

  /** The state of a search: a site chosen, nothing yet, or ended by an exception with nothing chosen. */
  datatype Search = Found(site: SiteValue) | NotFound | Stopped

  /** The first candidate that is selected or that stops the search decides. */
  function Pick(cands: seq<SiteValue>, siteName: Option<string>): (r: Search)
    ensures r.Found? ==> Selects(r.site, siteName)
    ensures r.Stopped? ==> siteName.Some?
  {
    if cands == [] then NotFound
    else if Stops(cands[0], siteName) then Stopped
    else if Selects(cands[0], siteName) then Found(cands[0])
    else Pick(cands[1..], siteName)
  }

  function SiteOf(s: Search): (r: Option<SiteValue>)
    ensures r.Some? <==> s.Found?
  {
    if s.Found? then Some(s.site) else None
  }

  /**
   * `HubotSite.get(job, listener, siteName)`: the folder search decides when
   * it chose a site or was stopped; only when it found nothing are the
   * global sites searched, by the same rule.
   */
  function Resolve(scopes: seq<Scope<SiteValue>>, globals: seq<SiteValue>, siteName: Option<string>): Option<SiteValue> {
    match Pick(FolderCandidates(scopes), siteName)
    case Found(s) => Some(s)
    case Stopped => None
    case NotFound => SiteOf(Pick(GlobalCandidates(globals, NearestFolderName(scopes)), siteName))
  }

  /** The search continued over `cands` from the state `acc`: a decided search stays decided. */
  function Continue(acc: Search, cands: seq<SiteValue>, siteName: Option<string>): Search {
    if acc.NotFound? then Pick(cands, siteName) else acc
  }

  // ---------------------------------------------------- search-order lemmas

  lemma {:induction false} PickConcat(xs: seq<SiteValue>, ys: seq<SiteValue>, siteName: Option<string>)
    ensures Pick(xs + ys, siteName) == Continue(Pick(xs, siteName), ys, siteName)
    decreases |xs|
  {
    if xs == [] {
      assert xs + ys == ys;
    } else {
      assert (xs + ys)[0] == xs[0];
      if !Stops(xs[0], siteName) && !Selects(xs[0], siteName) {
        assert (xs + ys)[1..] == xs[1..] + ys;
        PickConcat(xs[1..], ys, siteName);
      }
    }
  }

  lemma PickOne(c: SiteValue, siteName: Option<string>)
    ensures Pick([c], siteName) ==
      if Stops(c, siteName) then Stopped else if Selects(c, siteName) then Found(c) else NotFound
  {
    assert [c][1..] == [];
  }

  lemma ContinueStep(acc: Search, xs: seq<SiteValue>, c: SiteValue, siteName: Option<string>)
    ensures Continue(acc, xs + [c], siteName) == Continue(Continue(acc, xs, siteName), [c], siteName)
  {
    PickConcat(xs, [c], siteName);
  }

  lemma {:induction false} FolderCandidatesConcat(xs: seq<Scope<SiteValue>>, ys: seq<Scope<SiteValue>>)
    ensures FolderCandidates(xs + ys) == FolderCandidates(xs) + FolderCandidates(ys)
    decreases |ys|
  {
    if ys == [] {
      assert xs + ys == xs;
    } else {
      var init, last := ys[..|ys| - 1], ys[|ys| - 1];
      FolderCandidatesLast(xs, ys);
      FolderCandidatesConcat(xs, init);
      AppendAssociates(FolderCandidates(xs), FolderCandidates(init), ScopeCandidates(last));
    }
  }

  /** The last scope of `xs + ys` is the last scope of `ys`, whatever `xs` is. */
  lemma FolderCandidatesLast(xs: seq<Scope<SiteValue>>, ys: seq<Scope<SiteValue>>)
    requires ys != []
    ensures FolderCandidates(xs + ys) == FolderCandidates(xs + ys[..|ys| - 1]) + ScopeCandidates(ys[|ys| - 1])
  {
    var zs := xs + ys;
    assert zs[..|zs| - 1] == xs + ys[..|ys| - 1];
  }

  lemma AppendAssociates<T>(a: seq<T>, b: seq<T>, c: seq<T>)
    ensures a + b + c == a + (b + c)
  {
  }

  lemma {:induction false} NearestFolderNameConcat(xs: seq<Scope<SiteValue>>, ys: seq<Scope<SiteValue>>)
    ensures NearestFolderName(xs + ys) ==
      if NearestFolderName(xs).Some? then NearestFolderName(xs) else NearestFolderName(ys)
    decreases |xs|
  {
    if xs == [] {
      assert xs + ys == ys;
    } else {
      assert (xs + ys)[0] == xs[0];
      assert (xs + ys)[1..] == xs[1..] + ys;
      NearestFolderNameConcat(xs[1..], ys);
    }
  }

  lemma NearestFolderNameStep(scopes: seq<Scope<SiteValue>>, i: nat)
    requires i < |scopes|
    ensures NearestFolderName(scopes[..i + 1]) ==
      if NearestFolderName(scopes[..i]).Some? then NearestFolderName(scopes[..i])
      else if scopes[i].Folder? then Some(scopes[i].folderName) else None
  {
    assert scopes[..i + 1] == scopes[..i] + [scopes[i]];
    NearestFolderNameConcat(scopes[..i], [scopes[i]]);
    assert [scopes[i]][1..] == [];
  }

  lemma FolderCandidatesPrefix(scopes: seq<Scope<SiteValue>>, i: nat)
    requires i < |scopes|
    ensures FolderCandidates(scopes[..i + 1]) == FolderCandidates(scopes[..i]) + ScopeCandidates(scopes[i])
  {
    assert scopes[..i + 1][..i] == scopes[..i];
  }

  /**
   * The search order one site at a time: folder `k`'s sites come after
   * every site of the nearer folders and before those of the farther ones.
   */
  lemma FolderCandidatesAt(scopes: seq<Scope<SiteValue>>, k: nat)
    requires k < |scopes|
    ensures FolderCandidates(scopes) ==
      FolderCandidates(scopes[..k]) + ScopeCandidates(scopes[k]) + FolderCandidates(scopes[k + 1..])
  {
    assert scopes == scopes[..k + 1] + scopes[k + 1..];
    FolderCandidatesConcat(scopes[..k + 1], scopes[k + 1..]);
    FolderCandidatesPrefix(scopes, k);
  }

  /** One more folder searched: its sites are offered only if the nearer ones decided nothing. */
  lemma PickStep(scopes: seq<Scope<SiteValue>>, i: nat, siteName: Option<string>)
    requires i < |scopes|
    ensures Pick(FolderCandidates(scopes[..i + 1]), siteName) ==
      Continue(Pick(FolderCandidates(scopes[..i]), siteName), ScopeCandidates(scopes[i]), siteName)
  {
    FolderCandidatesPrefix(scopes, i);
    PickConcat(FolderCandidates(scopes[..i]), ScopeCandidates(scopes[i]), siteName);
  }

  /** Once the folders up to `i` decided the search, the farther folders change nothing. */
  lemma DecidedPrefixDecides(scopes: seq<Scope<SiteValue>>, i: nat, siteName: Option<string>)
    requires i <= |scopes| && !Pick(FolderCandidates(scopes[..i]), siteName).NotFound?
    ensures Pick(FolderCandidates(scopes), siteName) == Pick(FolderCandidates(scopes[..i]), siteName)
  {
    assert scopes == scopes[..i] + scopes[i..];
    FolderCandidatesConcat(scopes[..i], scopes[i..]);
    PickConcat(FolderCandidates(scopes[..i]), FolderCandidates(scopes[i..]), siteName);
  }

  /**
   * Whatever is resolved is a match: by name when a name is given (default
   * flags then play no part), a default site otherwise.
   */
  lemma ResolvedSiteIsSelected(scopes: seq<Scope<SiteValue>>, globals: seq<SiteValue>, siteName: Option<string>)
    requires Resolve(scopes, globals, siteName).Some?
    ensures var s := Resolve(scopes, globals, siteName).value;
      if siteName.Some? then s.name.Some? && EqualsIgnoreCase(s.name.value, siteName.value)
      else s.defaultSite
  {
  }

  /**
   * Nearest wins: once the folders up to some level decide, farther folders
   * and the global list change nothing.
   */
  lemma NearestFolderWins(near: seq<Scope<SiteValue>>, far: seq<Scope<SiteValue>>,
                          globals: seq<SiteValue>, siteName: Option<string>)
    requires Pick(FolderCandidates(near), siteName).Found?
    ensures Resolve(near + far, globals, siteName) == Some(Pick(FolderCandidates(near), siteName).site)
  {
    FolderCandidatesConcat(near, far);
    PickConcat(FolderCandidates(near), FolderCandidates(far), siteName);
  }

  /**
   * The global sites are consulted only when no folder chose a site and no
   * folder search was stopped; then they alone decide.
   */
  lemma GlobalsOnlyWhenFoldersFindNothing(scopes: seq<Scope<SiteValue>>, globals: seq<SiteValue>,
                                          other: seq<SiteValue>, siteName: Option<string>)
    ensures !Pick(FolderCandidates(scopes), siteName).NotFound? ==>
      Resolve(scopes, other, siteName) == Resolve(scopes, globals, siteName)
    ensures Pick(FolderCandidates(scopes), siteName).NotFound? ==>
      Resolve(scopes, globals, siteName) == SiteOf(Pick(GlobalCandidates(globals, NearestFolderName(scopes)), siteName))
  {
  }

  /**
   * The cascade is one search over a single list: the folder sites, nearest
   * first, followed by the global sites.
   */
  lemma ResolveIsOneSearch(scopes: seq<Scope<SiteValue>>, globals: seq<SiteValue>, siteName: Option<string>)
    ensures Resolve(scopes, globals, siteName) ==
      SiteOf(Pick(FolderCandidates(scopes) + GlobalCandidates(globals, NearestFolderName(scopes)), siteName))
  {
    PickConcat(FolderCandidates(scopes), GlobalCandidates(globals, NearestFolderName(scopes)), siteName);
  }

  /** An unnamed site met before any match ends a by-name search with nothing, global sites unsearched. */
  lemma UnnamedSiteStopsSearch(scopes: seq<Scope<SiteValue>>, globals: seq<SiteValue>, siteName: string, k: nat)
    requires k < |FolderCandidates(scopes)| && FolderCandidates(scopes)[k].name.None?
    requires forall i :: 0 <= i < k ==> !Selects(FolderCandidates(scopes)[i], Some(siteName))
    ensures Resolve(scopes, globals, Some(siteName)).None?
  {
    var cands := FolderCandidates(scopes);
    var before, after := cands[..k], cands[k..];
    assert cands == before + after;
    assert forall i :: 0 <= i < |before| ==> before[i] == cands[i];
    PickWithoutMatch(before, Some(siteName));
    PickConcat(before, after, Some(siteName));
    assert after[0] == cands[k] && Stops(after[0], Some(siteName));
    assert Pick(after, Some(siteName)) == Stopped;
    assert Pick(cands, Some(siteName)) == Stopped;
  }

  lemma {:induction false} PickWithoutMatch(cands: seq<SiteValue>, siteName: Option<string>)
    requires forall i :: 0 <= i < |cands| ==> !Selects(cands[i], siteName)
    ensures !Pick(cands, siteName).Found?
    decreases |cands|
  {
    if cands != [] && !Stops(cands[0], siteName) {
      PickWithoutMatch(cands[1..], siteName);
    }
  }

  /**
   * The room of a folder site under `useFolderName` is the name of the
   * folder holding it; otherwise the stored room. Every other field is the
   * stored site's, through `clone`.
   */
  lemma FolderSiteRoom(scopes: seq<Scope<SiteValue>>, k: nat, j: nat)
    requires k < |scopes| && scopes[k].Folder? && j < |scopes[k].sites|
    ensures |FolderCandidates(scopes[..k])| + j < |FolderCandidates(scopes)|
    ensures var c := FolderCandidates(scopes)[|FolderCandidates(scopes[..k])| + j];
      var stored := scopes[k].sites[j];
      && c.room == (if stored.useFolderName then Some(scopes[k].folderName) else stored.room)
      && c.(room := stored.room) == Cloned(stored)
  {
    FolderCandidatesAt(scopes, k);
  }

  /**
   * The room of a global site under `useFolderName` is the nearest folder's
   * name when the job is in a folder, and the stored room otherwise.
   */
  lemma GlobalSiteRoom(scopes: seq<Scope<SiteValue>>, globals: seq<SiteValue>, j: nat)
    requires j < |globals|
    ensures var c := GlobalCandidates(globals, NearestFolderName(scopes))[j];
      && c.room == (if globals[j].useFolderName && NearestFolderName(scopes).Some?
                    then NearestFolderName(scopes) else globals[j].room)
      && c.(room := globals[j].room) == Cloned(globals[j])
  {
  }

  // ------------------------------------------------------ the search itself

  /** The search state held in the locals `hubotSite`, `defaultSite` and the exception flag. */
  ghost function Progress(hubotSite: HubotSite?, defaultSite: HubotSite?, failed: bool, siteName: Option<string>): Search
    reads hubotSite, defaultSite
  {
    if siteName.Some? then
      if hubotSite != null then Found(hubotSite.Value())
      else if failed then Stopped
      else NotFound
    else if defaultSite != null then Found(defaultSite.Value())
    else NotFound
  }

  /** The body of both search loops: a by-name search reads the copy's name, a default search its flag. */
  method Offer(clone: HubotSite, siteName: Option<string>, hubotSite: HubotSite?, defaultSite: HubotSite?)
    returns (found: HubotSite?, default: HubotSite?, failed: bool)
    requires siteName.Some? ==> defaultSite == null
    requires siteName.None? ==> hubotSite == null
    ensures Progress(found, default, failed, siteName) ==
      Continue(Progress(hubotSite, defaultSite, false, siteName), [clone.Value()], siteName)
    ensures failed <==> Stops(clone.Value(), siteName)
    ensures siteName.Some? ==> default == null
    ensures siteName.None? ==> found == null
    ensures found == hubotSite || found == clone
    ensures default == defaultSite || default == clone
  {
    PickOne(clone.Value(), siteName);
    found, default, failed := hubotSite, defaultSite, false;
    if siteName.Some? {
      if clone.name.None? {
        failed := true;
      } else if EqualsIgnoreCase(clone.name.value, siteName.value) && hubotSite == null {
        found := clone;
      }
    } else if clone.defaultSite && defaultSite == null {
      default := clone;
    }
  }

  /**
   * One step of either loop: copy the stored site, give the copy the room
   * `room` if there is one, and offer the copy.
   */
  method OfferCopy(site: HubotSite, room: Option<string>, siteName: Option<string>,
                   hubotSite: HubotSite?, defaultSite: HubotSite?)
    returns (found: HubotSite?, default: HubotSite?, failed: bool)
    requires siteName.Some? ==> defaultSite == null
    requires siteName.None? ==> hubotSite == null
    ensures Progress(found, default, failed, siteName) ==
      Continue(Progress(hubotSite, defaultSite, false, siteName), [Renamed(site.Value(), room)], siteName)
    ensures failed ==> !Progress(found, default, failed, siteName).NotFound?
    ensures siteName.Some? ==> default == null
    ensures siteName.None? ==> found == null && !failed
    ensures found == hubotSite || (found != null && fresh(found))
    ensures default == defaultSite || (default != null && fresh(default))
  {
    var clone := site.Clone();
    if room.Some? {
      clone.SetRoom(room);
    }
    found, default, failed := Offer(clone, siteName, hubotSite, defaultSite);
  }

  /** A copy of a stored site, with its room replaced when `room` is given. */
  function Renamed(v: SiteValue, room: Option<string>): SiteValue {
    if room.Some? then Cloned(v).(room := room) else Cloned(v)
  }

  /**
   * The sites of one folder, each offered as a copy whose room is the
   * folder's name under `useFolderName`, until the search is stopped.
   */
  method SearchFolder(folderName: string, sites: seq<HubotSite>, siteName: Option<string>,
                      hubotSite: HubotSite?, defaultSite: HubotSite?)
    returns (found: HubotSite?, default: HubotSite?, failed: bool)
    requires siteName.Some? ==> defaultSite == null
    requires siteName.None? ==> hubotSite == null
    ensures Progress(found, default, failed, siteName) ==
      Continue(Progress(hubotSite, defaultSite, false, siteName), ScopeCandidates(Folder(folderName, Values(sites))), siteName)
    ensures failed ==> !Progress(found, default, failed, siteName).NotFound?
    ensures siteName.Some? ==> default == null
    ensures siteName.None? ==> found == null && !failed
    ensures found == hubotSite || (found != null && fresh(found))
    ensures default == defaultSite || (default != null && fresh(default))
  {
    ghost var acc := Progress(hubotSite, defaultSite, false, siteName);
    ghost var offered := ScopeCandidates(Folder(folderName, Values(sites)));
    found, default, failed := hubotSite, defaultSite, false;
    var j := 0;
    while j < |sites| && !failed
      invariant 0 <= j <= |sites|
      invariant Progress(found, default, failed, siteName) == Continue(acc, offered[..j], siteName)
      invariant failed ==> !Continue(acc, offered[..j], siteName).NotFound?
      invariant siteName.Some? ==> default == null
      invariant siteName.None? ==> found == null && !failed
      invariant found == hubotSite || (found != null && fresh(found))
      invariant default == defaultSite || (default != null && fresh(default))
    {
      var room := if sites[j].useFolderName then Some(folderName) else None;
      assert Renamed(sites[j].Value(), room) == offered[j];
      assert offered[..j + 1] == offered[..j] + [offered[j]];
      ContinueStep(acc, offered[..j], offered[j], siteName);
      found, default, failed := OfferCopy(sites[j], room, siteName, found, default);
      j := j + 1;
    }
    if failed {
      assert offered == offered[..j] + offered[j..];
      PickConcat(offered[..j], offered[j..], siteName);
    } else {
      assert offered[..j] == offered;
    }
  }

  /**
   * The global sites, each offered as a copy whose room is the nearest
   * folder's name under `useFolderName` when there is such a folder.
   */
  method SearchGlobals(globals: seq<HubotSite>, folderName: Option<string>, siteName: Option<string>)
    returns (found: HubotSite?, default: HubotSite?)
    ensures SiteOf(Pick(GlobalCandidates(Values(globals), folderName), siteName)) ==
      (if found != null then Some(found.Value()) else if default != null then Some(default.Value()) else None)
    ensures found != null ==> fresh(found)
    ensures default != null ==> fresh(default)
  {
    ghost var offered := GlobalCandidates(Values(globals), folderName);
    var failed := false;
    found, default := null, null;
    var k := 0;
    while k < |globals| && !failed
      invariant 0 <= k <= |globals|
      invariant Progress(found, default, failed, siteName) == Pick(offered[..k], siteName)
      invariant failed ==> !Pick(offered[..k], siteName).NotFound?
      invariant siteName.Some? ==> default == null
      invariant siteName.None? ==> found == null && !failed
      invariant found != null ==> fresh(found)
      invariant default != null ==> fresh(default)
    {
      var room := if globals[k].useFolderName && folderName.Some? then folderName else None;
      assert Renamed(globals[k].Value(), room) == offered[k];
      assert offered[..k + 1] == offered[..k] + [offered[k]];
      ContinueStep(NotFound, offered[..k], offered[k], siteName);
      found, default, failed := OfferCopy(globals[k], room, siteName, found, default);
      k := k + 1;
    }
    if failed {
      assert offered == offered[..k] + offered[k..];
      PickConcat(offered[..k], offered[k..], siteName);
    } else {
      assert offered[..k] == offered;
    }
  }

  /**
   * One enclosing group of the walk: a folder's sites are searched, and its
   * name is remembered unless a nearer folder's already is; any other group
   * is passed over.
   */
  method SearchScope(scope: Scope<HubotSite>, siteName: Option<string>, hubotSite: HubotSite?, defaultSite: HubotSite?,
                     folderName: Option<string>)
    returns (found: HubotSite?, default: HubotSite?, failed: bool, name: Option<string>)
    requires siteName.Some? ==> defaultSite == null
    requires siteName.None? ==> hubotSite == null
    ensures Progress(found, default, failed, siteName) ==
      Continue(Progress(hubotSite, defaultSite, false, siteName), ScopeCandidates(SnapshotScope(scope)), siteName)
    ensures failed ==> !Progress(found, default, failed, siteName).NotFound?
    ensures name == if folderName.Some? then folderName else if scope.Folder? then Some(scope.folderName) else None
    ensures siteName.Some? ==> default == null
    ensures siteName.None? ==> found == null && !failed
    ensures found == hubotSite || (found != null && fresh(found))
    ensures default == defaultSite || (default != null && fresh(default))
  {
    found, default, failed, name := hubotSite, defaultSite, false, folderName;
    match scope {
      case OtherGroup =>
        assert ScopeCandidates(SnapshotScope(scope)) == [];
      case Folder(fname, sites) =>
        if folderName.None? {
          name := Some(fname);
        }
        found, default, failed := SearchFolder(fname, sites, siteName, hubotSite, defaultSite);
    }
  }

  /**
   * The walk up the enclosing groups, nearest first: each folder's sites are
   * offered in order, and the first folder's name is remembered, until an
   * exception ends the walk.
   */
  method SearchFolders(ancestors: seq<Scope<HubotSite>>, ghost scopes: seq<Scope<SiteValue>>, siteName: Option<string>)
    returns (hubotSite: HubotSite?, defaultSite: HubotSite?, failed: bool, folderName: Option<string>)
    requires scopes == Snapshot(ancestors)
    ensures Progress(hubotSite, defaultSite, failed, siteName) == Pick(FolderCandidates(scopes), siteName)
    ensures !failed ==> folderName == NearestFolderName(scopes)
    ensures siteName.Some? ==> defaultSite == null
    ensures siteName.None? ==> hubotSite == null && !failed
    ensures hubotSite != null ==> fresh(hubotSite)
    ensures defaultSite != null ==> fresh(defaultSite)
  {
    hubotSite, defaultSite, failed, folderName := null, null, false, None;
    var i := 0;
    while i < |ancestors| && !failed
      invariant 0 <= i <= |ancestors|
      invariant Progress(hubotSite, defaultSite, failed, siteName) == Pick(FolderCandidates(scopes[..i]), siteName)
      invariant failed ==> !Pick(FolderCandidates(scopes[..i]), siteName).NotFound?
      invariant !failed ==> folderName == NearestFolderName(scopes[..i])
      invariant siteName.Some? ==> defaultSite == null
      invariant siteName.None? ==> hubotSite == null && !failed
      invariant hubotSite != null ==> fresh(hubotSite)
      invariant defaultSite != null ==> fresh(defaultSite)
      decreases |ancestors| - i
    {
      assert scopes[i] == old(SnapshotScope(ancestors[i]));
      assert old(SnapshotScope(ancestors[i])) == SnapshotScope(ancestors[i]);
      hubotSite, defaultSite, failed, folderName := SearchScope(ancestors[i], siteName, hubotSite, defaultSite, folderName);
      PickStep(scopes, i, siteName);
      NearestFolderNameStep(scopes, i);
      i := i + 1;
    }
    if failed {
      DecidedPrefixDecides(scopes, i, siteName);
    } else {
      assert scopes[..i] == scopes;
    }
  }

  /**
   * `HubotSite.get(job, listener, siteName)`: walks the enclosing groups
   * nearest-first offering a copy of each folder site, then, only if that
   * found nothing and nothing threw, a copy of each global site. The site it
   * returns is a new object and no stored site is changed.
   */
  method Get(ancestors: seq<Scope<HubotSite>>, globals: seq<HubotSite>, siteName: Option<string>)
    returns (r: HubotSite?)
    ensures r == null <==> Resolve(old(Snapshot(ancestors)), old(Values(globals)), siteName).None?
    ensures r != null ==> fresh(r) && r.Value() == Resolve(old(Snapshot(ancestors)), old(Values(globals)), siteName).value
  {
    ghost var scopes := Snapshot(ancestors);
    var hubotSite, defaultSite, failed, folderName := SearchFolders(ancestors, scopes, siteName);
    if hubotSite == null && defaultSite == null && !failed {
      assert old(Values(globals)) == Values(globals);
      hubotSite, defaultSite := SearchGlobals(globals, folderName, siteName);
    }
    r := if hubotSite == null then defaultSite else hubotSite;
  }

  /**
   * The job-level resolution: nothing unless the job property exists with
   * notifications enabled; an empty `siteNames` counts as no name.
   */
  function ResolveForJob(job: Job<SiteValue>, globals: seq<SiteValue>): Option<SiteValue> {
    if job.property.Some? && job.property.value.enableNotifications then
      Resolve(job.ancestors, globals, FixEmpty(job.property.value.siteNames))
    else None
  }

  lemma DisabledJobResolvesNothing(job: Job<SiteValue>, globals: seq<SiteValue>)
    requires job.property.None? || !job.property.value.enableNotifications
    ensures ResolveForJob(job, globals).None?
  {
  }

  /** An empty `siteNames` is a search for the default site. */
  lemma EmptySiteNamesMeansDefault(job: Job<SiteValue>, globals: seq<SiteValue>)
    requires job.property.Some? && job.property.value.enableNotifications
    requires job.property.value.siteNames == Some("")
    ensures ResolveForJob(job, globals) == Resolve(job.ancestors, globals, None)
    ensures ResolveForJob(job, globals).Some? ==> ResolveForJob(job, globals).value.defaultSite
  {
  }

  /** `HubotSite.get(job, listener)`. */
  method GetForJob(job: Job<HubotSite>, globals: seq<HubotSite>) returns (r: HubotSite?)
    ensures r == null <==> ResolveForJob(Job(job.property, old(Snapshot(job.ancestors))), old(Values(globals))).None?
    ensures r != null ==>
      fresh(r) && r.Value() == ResolveForJob(Job(job.property, old(Snapshot(job.ancestors))), old(Values(globals))).value
  {
    var enableNotifications := false;
    var siteName: Option<string> := None;
    if job.property.Some? {
      enableNotifications := job.property.value.enableNotifications;
      siteName := FixEmpty(job.property.value.siteNames);
    }
    if enableNotifications {
      r := Get(job.ancestors, globals, siteName);
    } else {
      r := null;
    }
  }

  // ------------------------------------------------------------- validation

  /** The item a site form is shown for: a folder (with its name) or anything else. */
  datatype FormContext = FolderForm(folderName: string) | OtherForm

  /** A form check that passed, with the room the test message would go to, or its error text. */
  datatype Validation = Invalid(error: string) | Valid(room: string, url: string)

  const SiteNameMissing := "Site name is empty or null."
  const GlobalRoomMissing := "Room Name is empty or null, is required for global config."
  const RoomMissing := "Room Name is empty or null."
  const UrlMissing := "URL is empty or null."

  function MalformedUrl(url: string): string {
    "Malformed URL (" + url + ")"
  }

  /**
   * The checks of `DescriptorImpl.doValidate` before its test message: the
   * name, then the room (a folder form with `useFolderName` makes it from
   * the prefix and the folder's name), then the URL, whose syntax after
   * sanitising is the abstract `syntax` predicate.
   */
  function DoValidate(project: FormContext, name: Option<string>, url: Option<string>, room: Option<string>,
                      roomPrefix: Option<string>, useFolderName: bool, syntax: UrlSyntax): (r: Validation)
    ensures FixEmpty(name).None? ==> r == Invalid(SiteNameMissing)
    ensures r.Valid? <==>
      && FixEmpty(name).Some?
      && (FixEmpty(room).Some? || (useFolderName && project.FolderForm?))
      && FixEmpty(url).Some? && syntax(SanitizeURL(url.value))
    ensures r.Valid? ==> r.url == url.value
    ensures r.Valid? && useFolderName && project.FolderForm? ==>
      r.room == (if FixEmpty(roomPrefix).Some? then roomPrefix.value else "") + project.folderName
    ensures r.Valid? && !(useFolderName && project.FolderForm?) ==> Some(r.room) == room
  {
    var prefix := if FixEmpty(roomPrefix).None? then "" else roomPrefix.value;
    if FixEmpty(name).None? then Invalid(SiteNameMissing)
    else
      var roomCheck :=
        if useFolderName then
          if project.FolderForm? then Ok(prefix + project.folderName)
          else if FixEmpty(room).None? then Err(GlobalRoomMissing)
          else Ok(room.value)
        else if FixEmpty(room).None? then Err(RoomMissing)
        else Ok(room.value);
      match roomCheck
      case Err(e) => Invalid(e)
      case Ok(effectiveRoom) =>
        if FixEmpty(url).None? then Invalid(UrlMissing)
        else if !syntax(SanitizeURL(url.value)) then Invalid(MalformedUrl(url.value))
        else Valid(effectiveRoom, url.value)
  }
}
