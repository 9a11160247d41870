/**
 * gibra's own logic (src/main.rs): the branch filter chosen from the command
 * line flags, the list of branches assembled from the repository, the order in
 * which they are offered to the picker, and the `git checkout` arguments used
 * for the chosen branch.
 *
 * The repository is given as data: what each libgit2 enumeration and name
 * lookup returns, including its failures.
 */
module Gibra {
  import opened Wrappers

  /** The two command line flags. */
  datatype Args = Args(remoteOnly: bool, localOnly: bool)

  datatype LocalBranch = LocalBranch(name: string, remoteName: Option<string>)
  datatype RemoteBranch = RemoteBranch(name: string, localName: Option<string>)

  datatype Branch = Local(local: LocalBranch) | Remote(remote: RemoteBranch)
  {
    /** `Branch::name`: the name of the local or the remote branch, whichever this is. */
    function Name(): (name: string)
      ensures Local? ==> name == local.name
      ensures Remote? ==> name == remote.name
    {
      match this
      case Local(l) => l.name
      case Remote(r) => r.name
    }

    /** `SkimItem::text`: the text the picker shows and matches. */
    function Text(): (text: string)
      ensures text == Name()
    {
      match this
      case Local(l) => l.name
      case Remote(r) => r.name
    }
  }

  datatype BranchType = LocalType | RemoteType

  /** What an error carries: its contexts, outermost first. */
  datatype Failure = Panic(message: string) | Failed(contexts: seq<string>)

  // ---------------------------------------------------------------------------
  // The repository, as the enumerations see it

  /** A `name()` lookup: a UTF-8 name, a name that is not UTF-8, or an error. */
  datatype NameLookup = Named(name: string) | Unnamed | NameError

  /** An `upstream()` lookup: the upstream branch's name lookup, or an error. */
  datatype UpstreamLookup = UpstreamError | Upstream(name: NameLookup)

  /** One item of the local-branch iterator. */
  datatype LocalEntry = LocalEntryError | LocalEntry(name: NameLookup, upstream: UpstreamLookup)

  /** One item of the remote-branch iterator. */
  datatype RemoteEntry = RemoteEntryError | RemoteEntry(name: NameLookup)

  /** A `branches()` call: an error, or the iterator's items in order. */
  datatype Listing<E> = ListingError | Listing(entries: seq<E>)

  /** `head()`: an error, or the reference's shorthand (absent when not UTF-8). */
  datatype HeadLookup = HeadError | Head(shorthand: Option<string>)

  datatype Repo = Repo(head: HeadLookup, locals: Listing<LocalEntry>, remotes: Listing<RemoteEntry>)

  /** Finding and opening the repository from the working directory. */
  datatype Discovery = NotFound | NoParent | OpenError | Opened(repo: Repo)

  // ---------------------------------------------------------------------------
  // get_branches

  /** The iterator adaptor `filter_map`: keeps the `Some` results, in order. */
  function FilterMap<E, B>(entries: seq<E>, f: E -> Option<B>): (r: seq<B>)
    ensures |r| <= |entries|
    ensures forall i | 0 <= i < |entries| && f(entries[i]).Some? :: f(entries[i]).value in r
    ensures forall b | b in r :: exists i | 0 <= i < |entries| :: f(entries[i]) == Some(b)
  {
    if entries == [] then []
    else
      var init := FilterMap(entries[..|entries| - 1], f);
      var last := entries[|entries| - 1];
      assert forall i | 0 <= i < |entries| - 1 :: entries[..|entries| - 1][i] == entries[i];
      match f(last)
      case Some(b) => init + [b]
      case None => init
  }

  /** One entry contributes its `Some` value, or nothing. */
  lemma FilterMapSingle<E, B>(e: E, f: E -> Option<B>)
    ensures FilterMap([e], f) == if f(e).Some? then [f(e).value] else []
  {
    assert [e][..0] == [];
  }

  /** `filter_map` keeps order and multiplicity: it maps a concatenation piece by piece. */
  lemma {:induction false} FilterMapAppend<E, B>(a: seq<E>, b: seq<E>, f: E -> Option<B>)
    ensures FilterMap(a + b, f) == FilterMap(a, f) + FilterMap(b, f)
    decreases |b|
  {
    if b == [] {
      assert a + b == a;
    } else {
      var init := b[..|b| - 1];
      assert (a + b)[..|a + b| - 1] == a + init;
      assert (a + b)[|a + b| - 1] == b[|b| - 1];
      FilterMapAppend(a, init, f);
    }
  }

  /** The closure over the local-branch iterator. */
  function LocalFromEntry(e: LocalEntry): (b: Option<Branch>)
    ensures b.Some? <==> e.LocalEntry? && e.name.Named? && e.upstream.Upstream? && !e.upstream.name.NameError?
    ensures b.Some? ==> b.value.Local? && b.value.local.name == e.name.name
    ensures b.Some? ==> (b.value.local.remoteName.Some? <==> e.upstream.name.Named?)
    ensures b.Some? && e.upstream.name.Named? ==> b.value.local.remoteName.value == e.upstream.name.name
  {
    match e
    case LocalEntryError => None
    case LocalEntry(name, upstream) =>
      match name
      case NameError => None
      case Unnamed => None
      case Named(branchName) =>
        match upstream
        case UpstreamError => None
        case Upstream(upstreamName) =>
          match upstreamName
          case NameError => None
          case Unnamed => Some(Local(LocalBranch(branchName, None)))
          case Named(n) => Some(Local(LocalBranch(branchName, Some(n))))
  }

  /** `remote_to_local_map`: each upstream name to its local branch, a later local replacing an earlier one. */
  function UpstreamMap(locals: seq<Branch>): (m: map<string, string>)
    ensures forall u | u in m :: exists i | 0 <= i < |locals| :: Tracks(locals, i, u) && locals[i].local.name == m[u]
  {
    if locals == [] then map[]
    else
      var init := locals[..|locals| - 1];
      var m := UpstreamMap(init);
      assert forall i | 0 <= i < |init| :: init[i] == locals[i];
      assert forall u | u in m :: exists i | 0 <= i < |locals| :: Tracks(locals, i, u) && locals[i].local.name == m[u] by {
        forall u | u in m ensures exists i | 0 <= i < |locals| :: Tracks(locals, i, u) && locals[i].local.name == m[u] {
          var i :| 0 <= i < |init| && Tracks(init, i, u) && init[i].local.name == m[u];
          assert Tracks(locals, i, u);
        }
      }
      match locals[|locals| - 1]
      case Local(LocalBranch(name, Some(upstream))) =>
        assert Tracks(locals, |locals| - 1, upstream);
        m[upstream := name]
      case _ => m
  }

  /** Whether `locals[i]` is a local branch tracking `upstream`. */
  predicate Tracks(locals: seq<Branch>, i: int, upstream: string)
    requires 0 <= i < |locals|
  {
    locals[i].Local? && locals[i].local.remoteName == Some(upstream)
  }

  /** The map's keys are exactly the upstream names of the local branches. */
  lemma {:induction false} UpstreamMapKeys(locals: seq<Branch>, upstream: string)
    ensures upstream in UpstreamMap(locals) <==> exists i | 0 <= i < |locals| :: Tracks(locals, i, upstream)
    decreases |locals|
  {
    if locals != [] {
      var n := |locals| - 1;
      var init := locals[..n];
      UpstreamMapKeys(init, upstream);
      assert forall i | 0 <= i < n :: Tracks(init, i, upstream) == Tracks(locals, i, upstream) by {
        assert forall i | 0 <= i < n :: init[i] == locals[i];
      }
      if !Tracks(locals, n, upstream) {
        assert upstream in UpstreamMap(locals) <==> upstream in UpstreamMap(init);
      }
    }
  }

  /** With several locals tracking the same upstream, the last of them is the one kept. */
  lemma {:induction false} UpstreamMapLastWins(locals: seq<Branch>, i: nat, upstream: string)
    requires i < |locals| && Tracks(locals, i, upstream)
    requires forall j | i < j < |locals| :: !Tracks(locals, j, upstream)
    ensures upstream in UpstreamMap(locals) && UpstreamMap(locals)[upstream] == locals[i].local.name
    decreases |locals|
  {
    var init := locals[..|locals| - 1];
    if i < |locals| - 1 {
      assert Tracks(init, i, upstream);
      forall j | i < j < |init| ensures !Tracks(init, j, upstream) {
        assert init[j] == locals[j];
        assert !Tracks(locals, j, upstream);
      }
      UpstreamMapLastWins(init, i, upstream);
      assert !Tracks(locals, |locals| - 1, upstream);
    }
  }

  /** The closure over the remote-branch iterator. */
  function RemoteFromEntry(upstreams: map<string, string>, e: RemoteEntry): (b: Option<Branch>)
    ensures b.Some? <==> e.RemoteEntry? && e.name.Named?
    ensures b.Some? ==> b.value.Remote? && b.value.remote.name == e.name.name
    ensures b.Some? ==> (b.value.remote.localName.Some? <==> e.name.name in upstreams)
    ensures b.Some? && e.name.name in upstreams ==> b.value.remote.localName.value == upstreams[e.name.name]
  {
    match e
    case RemoteEntryError => None
    case RemoteEntry(name) =>
      match name
      case NameError => None
      case Unnamed => None
      case Named(branchName) =>
        var localName := if branchName in upstreams then Some(upstreams[branchName]) else None;
        Some(Remote(RemoteBranch(branchName, localName)))
  }

  /** The local branches kept from a local listing. */
  function CollectLocals(entries: seq<LocalEntry>): (locals: seq<Branch>)
    ensures |locals| <= |entries|
    ensures forall b | b in locals :: b.Local?
  {
    FilterMap(entries, LocalFromEntry)
  }

  /** The remote branches kept from a remote listing, each told its local branch. */
  function CollectRemotes(locals: seq<Branch>, entries: seq<RemoteEntry>): (remotes: seq<Branch>)
    ensures |remotes| <= |entries|
    ensures forall b | b in remotes :: b.Remote?
  {
    var upstreams := UpstreamMap(locals);
    FilterMap(entries, e => RemoteFromEntry(upstreams, e))
  }

  const LOCAL_CONTEXT := "Failed to get local branches"
  const REMOTE_CONTEXT := "Failed to get remote branches"

  /** `get_branches`: the local listing is always needed, the remote one unless only locals are wanted. */
  function GetBranches(repo: Repo, filter: Option<BranchType>): (r: Result<seq<Branch>, Failure>)
    ensures r.Err? <==> repo.locals.ListingError? || (filter != Some(LocalType) && repo.remotes.ListingError?)
  {
    match repo.locals
    case ListingError => Err(Failed([LOCAL_CONTEXT]))
    case Listing(localEntries) =>
      var locals := CollectLocals(localEntries);
      if filter == Some(LocalType) then Ok(locals)
      else
        match repo.remotes
        case ListingError => Err(Failed([REMOTE_CONTEXT]))
        case Listing(remoteEntries) =>
          var remotes := CollectRemotes(locals, remoteEntries);
          if filter == Some(RemoteType) then Ok(remotes) else Ok(locals + remotes)
  }

  /**
   * The unfiltered list is the local list followed by the remote list, each
   * in its own listing order; the local filter keeps only locals and the
   * remote filter only remotes.
   */
  lemma FiltersSplitBranches(repo: Repo)
    requires repo.locals.Listing? && repo.remotes.Listing?
    ensures GetBranches(repo, None).value
         == GetBranches(repo, Some(LocalType)).value + GetBranches(repo, Some(RemoteType)).value
    ensures forall b | b in GetBranches(repo, Some(LocalType)).value :: b.Local?
    ensures forall b | b in GetBranches(repo, Some(RemoteType)).value :: b.Remote?
  {
  }

  /**
   * A kept remote branch knows a local branch exactly when some kept local
   * branch tracks it, and then it knows the last such local branch.
   */
  lemma RemoteKnowsTrackingLocal(locals: seq<Branch>, entries: seq<RemoteEntry>, b: Branch)
    requires b in CollectRemotes(locals, entries)
    ensures b.Remote?
    ensures b.remote.localName.Some? <==> exists i | 0 <= i < |locals| :: Tracks(locals, i, b.remote.name)
    ensures b.remote.localName.Some? ==>
              exists i | 0 <= i < |locals| ::
                Tracks(locals, i, b.remote.name) && locals[i].local.name == b.remote.localName.value
                && forall j | i < j < |locals| :: !Tracks(locals, j, b.remote.name)
  {
    var upstreams := UpstreamMap(locals);
    var i :| 0 <= i < |entries| && RemoteFromEntry(upstreams, entries[i]) == Some(b);
    UpstreamMapKeys(locals, b.remote.name);
    if b.remote.localName.Some? {
      var last := LastTracking(locals, b.remote.name);
      UpstreamMapLastWins(locals, last, b.remote.name);
    }
  }

  /** The position of the last local branch tracking `upstream`. */
  lemma LastTracking(locals: seq<Branch>, upstream: string) returns (i: nat)
    requires exists i | 0 <= i < |locals| :: Tracks(locals, i, upstream)
    ensures i < |locals| && Tracks(locals, i, upstream)
    ensures forall j | i < j < |locals| :: !Tracks(locals, j, upstream)
  {
    var k :| 0 <= k < |locals| && Tracks(locals, k, upstream);
    i := k;
    while i + 1 < |locals| && exists j | i < j < |locals| :: Tracks(locals, j, upstream)
      invariant i < |locals| && Tracks(locals, i, upstream)
      decreases |locals| - i
    {
      var later :| i < later < |locals| && Tracks(locals, later, upstream);
      i := later;
    }
  }

  // ---------------------------------------------------------------------------
  // main: what the picker is fed

  const BOTH_FLAGS_MESSAGE := "Cannot specify both --remote-only and --local-only"

  /** The branch filter the flags ask for; both flags at once is a panic. */
  function FilterOf(args: Args): (r: Result<Option<BranchType>, Failure>)
    ensures r.Err? <==> args.remoteOnly && args.localOnly
    ensures r.Err? ==> r.error == Panic(BOTH_FLAGS_MESSAGE)
    ensures r.Ok? ==> (r.value == Some(RemoteType) <==> args.remoteOnly)
    ensures r.Ok? ==> (r.value == Some(LocalType) <==> args.localOnly)
    ensures r.Ok? ==> (r.value == None <==> !args.remoteOnly && !args.localOnly)
  {
    if args.remoteOnly && args.localOnly then Err(Panic(BOTH_FLAGS_MESSAGE))
    else if args.remoteOnly then Ok(Some(RemoteType))
    else if args.localOnly then Ok(Some(LocalType))
    else Ok(None)
  }

  /** `find_git_root` followed by `Repository::open`. */
  function OpenRepo(discovery: Discovery): (r: Result<Repo, Failure>)
    ensures r.Ok? <==> discovery.Opened?
    ensures r.Ok? ==> r.value == discovery.repo
  {
    match discovery
    case NotFound => Err(Failed(["Failed to find git root"]))
    case NoParent => Err(Failed(["Failed to find git root", "Failed to get parent"]))
    case OpenError => Err(Failed(["Failed to open repository"]))
    case Opened(repo) => Ok(repo)
  }

  /** `get_current_branch`: HEAD's shorthand as a local branch without upstream. */
  function CurrentBranch(repo: Repo): (r: Result<Branch, Failure>)
    ensures r.Ok? <==> repo.head.Head? && repo.head.shorthand.Some?
    ensures r.Ok? ==> r.value == Local(LocalBranch(repo.head.shorthand.value, None))
  {
    match repo.head
    case HeadError => Err(Failed(["Failed to get current branch", "Failed to get HEAD"]))
    case Head(None) => Err(Failed(["Failed to get current branch", "Failed to get branch name"]))
    case Head(Some(name)) => Ok(Local(LocalBranch(name, None)))
  }

  /** The branches of `bs` not named `name`, in order. */
  function WithoutName(bs: seq<Branch>, name: string): (r: seq<Branch>)
    ensures |r| <= |bs|
  {
    if bs == [] then []
    else
      var init := WithoutName(bs[..|bs| - 1], name);
      if bs[|bs| - 1].Name() != name then init + [bs[|bs| - 1]] else init
  }

  /** Exactly the branches of `bs` with a different name survive. */
  lemma {:induction false} WithoutNameMembers(bs: seq<Branch>, name: string)
    ensures forall b | b in WithoutName(bs, name) :: b.Name() != name
    ensures forall b | b in bs && b.Name() != name :: b in WithoutName(bs, name)
    ensures forall b | b in WithoutName(bs, name) :: b in bs
    decreases |bs|
  {
    if bs != [] {
      var init := bs[..|bs| - 1];
      WithoutNameMembers(init, name);
      assert bs == init + [bs[|bs| - 1]];
    }
  }

  /** Removing the branches named `name` keeps the others' relative order. */
  lemma {:induction false} WithoutNameAppend(bs: seq<Branch>, cs: seq<Branch>, name: string)
    ensures WithoutName(bs + cs, name) == WithoutName(bs, name) + WithoutName(cs, name)
    decreases |cs|
  {
    if cs == [] {
      assert bs + cs == bs;
    } else {
      var init := cs[..|cs| - 1];
      assert (bs + cs)[..|bs + cs| - 1] == bs + init;
      assert (bs + cs)[|bs + cs| - 1] == cs[|cs| - 1];
      WithoutNameAppend(bs, init, name);
    }
  }

  /**
   * The branches `main` sends to the picker, or the error it stops with: the
   * current branch first unless only remote branches are wanted, then every
   * listed branch whose name differs from the current branch's.
   */
  function PickerFeed(args: Args, discovery: Discovery): (r: Result<seq<Branch>, Failure>)
    ensures FilterOf(args).Err? ==> r == Err(FilterOf(args).error)
    ensures FilterOf(args).Ok? && OpenRepo(discovery).Err? ==> r == Err(OpenRepo(discovery).error)
    ensures r.Ok? <==>
              FilterOf(args).Ok? && discovery.Opened? && CurrentBranch(discovery.repo).Ok?
              && GetBranches(discovery.repo, FilterOf(args).value).Ok?
    ensures FilterOf(args).Ok? && discovery.Opened? && CurrentBranch(discovery.repo).Ok? && r.Err? ==>
              r.error.Failed? && ["Failed to get branches"] <= r.error.contexts
  {
    match FilterOf(args)
    case Err(e) => Err(e)
    case Ok(filter) =>
      match OpenRepo(discovery)
      case Err(e) => Err(e)
      case Ok(repo) =>
        match CurrentBranch(repo)
        case Err(e) => Err(e)
        case Ok(current) =>
          match GetBranches(repo, filter)
          case Err(Failed(contexts)) => Err(Failed(["Failed to get branches"] + contexts))
          case Err(e) => Err(e)
          case Ok(branches) =>
            Ok((if args.remoteOnly then [] else [current]) + WithoutName(branches, current.Name()))
  }

  /** The `filter` and `for_each` of `main`: sends, after `sent`, each branch not named `name`. */
  method SendBranches(sent: seq<Branch>, branches: seq<Branch>, name: string) returns (r: seq<Branch>)
    ensures r == sent + WithoutName(branches, name)
  {
    r := sent;
    for i := 0 to |branches|
      invariant r == sent + WithoutName(branches[..i], name)
    {
      if branches[i].Name() != name {
        r := r + [branches[i]];
      }
      assert branches[..i + 1][..i] == branches[..i];
    }
    assert branches[..|branches|] == branches;
  }

  /** `main` up to the picker: chooses the filter, opens the repository and sends the branches. */
  method FeedPicker(args: Args, discovery: Discovery) returns (r: Result<seq<Branch>, Failure>)
    ensures r == PickerFeed(args, discovery)
  {
    var branchFilter: Option<BranchType>;
    if args.remoteOnly && args.localOnly {
      return Err(Panic(BOTH_FLAGS_MESSAGE));
    } else if args.remoteOnly {
      branchFilter := Some(RemoteType);
    } else if args.localOnly {
      branchFilter := Some(LocalType);
    } else {
      branchFilter := None;
    }
    var repo;
    match OpenRepo(discovery) {
      case Err(e) => return Err(e);
      case Ok(found) => repo := found;
    }
    var current;
    match CurrentBranch(repo) {
      case Err(e) => return Err(e);
      case Ok(branch) => current := branch;
    }
    var sent: seq<Branch> := [];
    if !args.remoteOnly {
      sent := sent + [current];
    }
    var branches;
    match GetBranches(repo, branchFilter) {
      case Err(e) =>
        return if e.Failed? then Err(Failed(["Failed to get branches"] + e.contexts)) else Err(e);
      case Ok(bs) => branches := bs;
    }
    assert sent == if args.remoteOnly then [] else [current];
    sent := SendBranches(sent, branches, current.Name());
    assert FilterOf(args) == Ok(branchFilter);
    assert OpenRepo(discovery) == Ok(repo);
    assert CurrentBranch(repo) == Ok(current);
    assert GetBranches(repo, branchFilter) == Ok(branches);
    return Ok(sent);
  }

  /**
   * In the picker's list the current branch comes first unless only remote
   * branches are shown, and no other entry has its name.
   */
  lemma CurrentBranchOnce(args: Args, discovery: Discovery)
    requires PickerFeed(args, discovery).Ok?
    ensures var feed := PickerFeed(args, discovery).value;
            var current := CurrentBranch(discovery.repo).value;
            (!args.remoteOnly ==> |feed| > 0 && feed[0] == current)
            && (forall k | (if args.remoteOnly then 0 else 1) <= k < |feed| :: feed[k].Name() != current.Name())
  {
    var current := CurrentBranch(discovery.repo).value;
    var branches := GetBranches(discovery.repo, FilterOf(args).value).value;
    WithoutNameMembers(branches, current.Name());
    var feed := PickerFeed(args, discovery).value;
    var rest := WithoutName(branches, current.Name());
    forall k | (if args.remoteOnly then 0 else 1) <= k < |feed| ensures feed[k].Name() != current.Name() {
      assert feed[k] == rest[k - (if args.remoteOnly then 0 else 1)];
    }
  }

  /** Every listed branch with a name other than the current one reaches the picker. */
  lemma EveryOtherBranchOffered(args: Args, discovery: Discovery, b: Branch)
    requires PickerFeed(args, discovery).Ok?
    requires b in GetBranches(discovery.repo, FilterOf(args).value).value
    requires b.Name() != CurrentBranch(discovery.repo).value.Name()
    ensures b in PickerFeed(args, discovery).value
  {
    var branches := GetBranches(discovery.repo, FilterOf(args).value).value;
    WithoutNameMembers(branches, CurrentBranch(discovery.repo).value.Name());
  }

  // ---------------------------------------------------------------------------
  // Checkout

  /** Whether a `git` argument list creates a new branch. */
  predicate CreatesBranch(gitArgs: seq<string>) {
    |gitArgs| == 3 && gitArgs[1] == "-b"
  }

  /** `checkout_local_branch`: switch to the branch. */
  function CheckoutLocalArgs(branch: LocalBranch): seq<string> {
    ["checkout", branch.name]
  }

  /**
   * `checkout_remote_branch`: switch to the local branch that tracks it if
   * there is one, otherwise create a branch with the remote branch's name.
   */
  function CheckoutRemoteArgs(branch: RemoteBranch): (gitArgs: seq<string>)
    ensures |gitArgs| == if branch.localName.Some? then 2 else 3
    ensures gitArgs[0] == "checkout"
    ensures CreatesBranch(gitArgs) <==> branch.localName.None?
    ensures gitArgs[|gitArgs| - 1] == if branch.localName.Some? then branch.localName.value else branch.name
  {
    match branch.localName
    case Some(localName) => ["checkout", localName]
    case None => ["checkout", "-b", branch.name]
  }

  /** `checkout`: the arguments of the `git` command run for the chosen branch. */
  function CheckoutArgs(branch: Branch): (gitArgs: seq<string>)
    ensures branch.Local? ==> gitArgs == ["checkout", branch.local.name]
    ensures branch.Remote? && branch.remote.localName.Some? ==> gitArgs == ["checkout", branch.remote.localName.value]
    ensures branch.Remote? && branch.remote.localName.None? ==> gitArgs == ["checkout", "-b", branch.remote.name]
    ensures CreatesBranch(gitArgs) <==> branch.Remote? && branch.remote.localName.None?
  {
    match branch
    case Local(l) => CheckoutLocalArgs(l)
    case Remote(r) => CheckoutRemoteArgs(r)
  }

  /**
   * Choosing a listed remote branch that a local branch tracks switches to
   * the last local branch tracking it instead of creating a branch.
   */
  lemma TrackedRemoteSwitchesToLocal(repo: Repo, b: Branch)
    requires repo.locals.Listing? && repo.remotes.Listing?
    requires b in CollectRemotes(CollectLocals(repo.locals.entries), repo.remotes.entries)
    requires exists i | 0 <= i < |CollectLocals(repo.locals.entries)| ::
               Tracks(CollectLocals(repo.locals.entries), i, b.Name())
    ensures var locals := CollectLocals(repo.locals.entries);
            exists i | 0 <= i < |locals| ::
              Tracks(locals, i, b.Name()) && CheckoutArgs(b) == ["checkout", locals[i].local.name]
              && forall j | i < j < |locals| :: !Tracks(locals, j, b.Name())
  {
    RemoteKnowsTrackingLocal(CollectLocals(repo.locals.entries), repo.remotes.entries, b);
  }

  /** What the picker returns: no output, an abort, or the selected items in order. */
  datatype PickerOutcome = NoOutput | Aborted | Finished(selected: seq<Branch>)

  /** How `main` ends. */
  datatype Ending = Exit(code: int) | Checkout(gitArgs: seq<string>) | Stopped(failure: Failure)

  /** The end of `main`: exit 130 on abort, check out the first selected branch, or fail. */
  function AfterPicker(outcome: PickerOutcome): (e: Ending)
    ensures e.Exit? <==> outcome.Aborted?
    ensures e.Exit? ==> e.code == 130
    ensures e.Checkout? <==> outcome.Finished? && outcome.selected != []
    ensures e.Checkout? ==> e.gitArgs == CheckoutArgs(outcome.selected[0])
  {
    match outcome
    case Aborted => Exit(130)
    case NoOutput => Stopped(Failed(["Failed to get selected branch"]))
    case Finished(selected) =>
      if selected == [] then Stopped(Failed(["Failed to get selected branch"]))
      else Checkout(CheckoutArgs(selected[0]))
  }
}
