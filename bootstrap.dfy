/** Where the settings panel is mounted (`findUILocation`) and the bounded
    delayed retry of `addUI` (`retryInit` / `tryAgain`), as pure functions of
    what the host page offers at each attempt. */
module Bootstrap {
  import opened Options

  /** The insertion points `findUILocation` looks for, in its order of
      preference. `SendFormParent` is the parent element of `#send_form`. */
  datatype Candidate =
    | ExtensionsSettingsId | ExtensionsSettings2Id | ExtensionsSettingsClass
    | ThirdPartyExtensionsId | ThirdPartyExtensionsClass
    | RightNavPanel | RightSendForm | DrawerContent | SendFormParent
    | Chat | MainId | ContentClass | Body

  /** The extensions-settings area, tried first. */
  const ExtensionsArea: seq<Candidate> :=
    [ExtensionsSettingsId, ExtensionsSettings2Id, ExtensionsSettingsClass,
     ThirdPartyExtensionsId, ThirdPartyExtensionsClass]
  /** The right-hand panel areas, tried when no extensions area exists. */
  const SidePanelArea: seq<Candidate> := [RightNavPanel, RightSendForm, DrawerContent, SendFormParent]
  /** The main content areas, with the document body as last resort. */
  const ContentArea: seq<Candidate> := [Chat, MainId, ContentClass, Body]

  const Priority: seq<Candidate> := ExtensionsArea + SidePanelArea + ContentArea

  /** Position of a candidate in the overall order of preference. */
  function Rank(c: Candidate): nat {
    match c
    case ExtensionsSettingsId => 0
    case ExtensionsSettings2Id => 1
    case ExtensionsSettingsClass => 2
    case ThirdPartyExtensionsId => 3
    case ThirdPartyExtensionsClass => 4
    case RightNavPanel => 5
    case RightSendForm => 6
    case DrawerContent => 7
    case SendFormParent => 8
    case Chat => 9
    case MainId => 10
    case ContentClass => 11
    case Body => 12
  }

  /** One `||` chain of `querySelector` calls, from position `from` on: the
      first candidate the page has. */
  function FirstPresent(cands: seq<Candidate>, present: set<Candidate>, from: nat): (r: Option<Candidate>)
    requires from <= |cands|
    ensures r.None? ==> forall j | from <= j < |cands| :: cands[j] !in present
    ensures r.Some? ==> exists k | from <= k < |cands| ::
      cands[k] == r.value && r.value in present && forall j | from <= j < k :: cands[j] !in present
    decreases |cands| - from
  {
    if from == |cands| then None
    else if cands[from] in present then Some(cands[from])
    else FirstPresent(cands, present, from + 1)
  }

  /** `findUILocation`: the extensions area, else the side panels, else the
      content areas. */
  function FindUILocation(present: set<Candidate>): Option<Candidate> {
    var target := FirstPresent(ExtensionsArea, present, 0);
    if target.Some? then target
    else
      var side := FirstPresent(SidePanelArea, present, 0);
      if side.Some? then side else FirstPresent(ContentArea, present, 0)
  }

  lemma RankIsPosition()
    ensures |Priority| == 13
    ensures forall c: Candidate :: Rank(c) < |Priority| && Priority[Rank(c)] == c
  {
    forall c: Candidate ensures Rank(c) < |Priority| && Priority[Rank(c)] == c {
      match c
      case ExtensionsSettingsId =>
      case ExtensionsSettings2Id =>
      case ExtensionsSettingsClass =>
      case ThirdPartyExtensionsId =>
      case ThirdPartyExtensionsClass =>
      case RightNavPanel =>
      case RightSendForm =>
      case DrawerContent =>
      case SendFormParent =>
      case Chat =>
      case MainId =>
      case ContentClass =>
      case Body =>
    }
  }

  /** The three chains one after the other are one chain over the whole order. */
  lemma {:induction false} FirstPresentConcat(a: seq<Candidate>, b: seq<Candidate>, present: set<Candidate>, from: nat)
    requires from <= |a|
    ensures FirstPresent(a + b, present, from)
         == if FirstPresent(a, present, from).Some? then FirstPresent(a, present, from)
            else FirstPresent(b, present, 0)
    decreases |a| - from
  {
    if from == |a| {
      FirstPresentShift(a, b, present, 0);
    } else {
      assert (a + b)[from] == a[from];
      FirstPresentConcat(a, b, present, from + 1);
    }
  }

  lemma {:induction false} FirstPresentShift(a: seq<Candidate>, b: seq<Candidate>, present: set<Candidate>, from: nat)
    requires from <= |b|
    ensures FirstPresent(a + b, present, |a| + from) == FirstPresent(b, present, from)
    decreases |b| - from
  {
    if from < |b| {
      assert (a + b)[|a| + from] == b[from];
      FirstPresentShift(a, b, present, from + 1);
    }
  }

  /** `findUILocation`'s three stages are one first-match over `Priority`. */
  lemma FindUILocationIsFirst(present: set<Candidate>)
    ensures FindUILocation(present) == FirstPresent(Priority, present, 0)
  {
    FirstPresentConcat(ExtensionsArea, SidePanelArea, present, 0);
    FirstPresentConcat(ExtensionsArea + SidePanelArea, ContentArea, present, 0);
  }

  /** The panel goes to the most preferred insertion point the page has, and
      a location is found exactly when the page has any candidate at all. */
  lemma FindUILocationSpec(present: set<Candidate>)
    ensures FindUILocation(present).None? <==> present == {}
    ensures FindUILocation(present).Some? ==>
      FindUILocation(present).value in present
      && forall d | d in present :: Rank(FindUILocation(present).value) <= Rank(d)
  {
    FindUILocationIsFirst(present);
    RankIsPosition();
    var r := FirstPresent(Priority, present, 0);
    if present != {} {
      var d :| d in present;
      assert Priority[Rank(d)] in present;
    }
    if r.Some? {
      var k :| 0 <= k < |Priority| && Priority[k] == r.value && r.value in present
        && forall j | 0 <= j < k :: Priority[j] !in present;
      assert Rank(r.value) == k by {
        assert Priority[Rank(r.value)] == r.value;
      }
      forall d | d in present ensures Rank(r.value) <= Rank(d) {
        assert Priority[Rank(d)] == d;
      }
    }
  }

  /** `maxAttempts` of the delayed retry loop. */
  const MaxAttempts: nat := 10

  /** Whether `findUILocation` found a target at attempt `k` (counting from
      0); once the given outcomes run out, it finds none. */
  function TargetFound(found: seq<bool>, k: nat): bool {
    k < |found| && found[k]
  }

  /** The "target found" outcome of each page snapshot, in order. */
  function TargetsFound(snapshots: seq<set<Candidate>>): seq<bool> {
    seq(|snapshots|, k requires 0 <= k < |snapshots| => FindUILocation(snapshots[k]).Some?)
  }

  datatype RetryResult = RetryResult(mounted: bool, attempts: nat)

  /** `tryAgain` after `attempts` earlier tries: count the attempt, try
      `addUI` (which succeeds when a target is found and no panel exists),
      and schedule another only below the bound. */
  function TryAgain(panelPresent: bool, found: seq<bool>, attempts: nat): RetryResult
    requires attempts < MaxAttempts
    decreases MaxAttempts - attempts
  {
    var next := attempts + 1;
    if TargetFound(found, attempts) && !panelPresent then RetryResult(true, next)
    else if next < MaxAttempts then TryAgain(panelPresent, found, next)
    else RetryResult(false, next)
  }

  /** `retryInit`: a fresh counter, then the chain of `tryAgain` calls. */
  function RetryInit(panelPresent: bool, found: seq<bool>): RetryResult {
    TryAgain(panelPresent, found, 0)
  }

  lemma {:induction false} TryAgainSpec(panelPresent: bool, found: seq<bool>, attempts: nat)
    requires attempts < MaxAttempts
    ensures var r := TryAgain(panelPresent, found, attempts);
      attempts < r.attempts <= MaxAttempts
      && (forall k | attempts <= k < r.attempts - 1 :: panelPresent || !TargetFound(found, k))
      && (r.mounted <==> !panelPresent && TargetFound(found, r.attempts - 1))
      && (!r.mounted ==> r.attempts == MaxAttempts)
    decreases MaxAttempts - attempts
  {
    if (panelPresent || !TargetFound(found, attempts)) && attempts + 1 < MaxAttempts {
      TryAgainSpec(panelPresent, found, attempts + 1);
    }
  }

  /** The delayed loop calls `addUI` between 1 and `maxAttempts` times and
      stops at the first success: every earlier attempt failed, and it gives
      up only after `maxAttempts` failures. */
  lemma RetryInitSpec(panelPresent: bool, found: seq<bool>)
    ensures var r := RetryInit(panelPresent, found);
      1 <= r.attempts <= MaxAttempts
      && (forall k | 0 <= k < r.attempts - 1 :: panelPresent || !TargetFound(found, k))
      && (r.mounted <==> !panelPresent && TargetFound(found, r.attempts - 1))
      && (!r.mounted ==> r.attempts == MaxAttempts)
  {
    TryAgainSpec(panelPresent, found, 0);
  }

  /** The loop mounts exactly when some attempt within the bound finds a
      target while no panel exists; with a panel already present it never
      mounts and uses all `maxAttempts` attempts. */
  lemma RetryInitMountsIff(panelPresent: bool, found: seq<bool>)
    ensures RetryInit(panelPresent, found).mounted
        <==> !panelPresent && exists k | 0 <= k < MaxAttempts :: TargetFound(found, k)
    ensures panelPresent ==> RetryInit(panelPresent, found) == RetryResult(false, MaxAttempts)
  {
    RetryInitSpec(panelPresent, found);
    var r := RetryInit(panelPresent, found);
    if r.mounted {
      assert TargetFound(found, r.attempts - 1);
    } else if !panelPresent {
      forall k | 0 <= k < MaxAttempts ensures !TargetFound(found, k) {
        if k == r.attempts - 1 {
        }
      }
    }
  }
}
