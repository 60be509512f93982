/** The scheduled job that sweeps every eligible image through the handler, one at a time,
    saving each and honouring a cooperative stop flag. */
module TaggingJob {
  import opened Wrappers
  import opened Text
  import opened Content
  import opened Handler

  /** A content version's status in the CMS. */
  datatype VersionStatus =
    | NotCreated | Rejected | CheckedOut | CheckedIn | Published | PreviouslyPublished
    | DelayedPublish | AwaitingApproval

  datatype SaveAction = CheckIn | Publish

  /** A published image is republished; any other version is checked in. */
  function ActionFor(status: VersionStatus): (action: SaveAction)
    ensures action == Publish <==> status == Published
    ensures action == CheckIn <==> status != Published
  {
    if status == Published then Publish else CheckIn
  }

  /** A content reference. */
  type ContentRef = nat

  /** A content type as the type repository lists it: whether its model type is a proper
      subclass of `ImageData`, and its properties. */
  datatype ContentType = ContentType(name: string, subclassesImageData: bool, properties: seq<Property>)

  predicate HasVisionProperty(props: seq<Property>) {
    exists i :: 0 <= i < |props| && props[i].vision.Some?
  }

  /** A content type the job sweeps: an image type with at least one vision-marked property. */
  predicate Eligible(ct: ContentType) {
    ct.subclassesImageData && HasVisionProperty(ct.properties)
  }

  /** The `clist` query: the usages of every eligible content type, type by type. */
  function EligibleImages(types: seq<ContentType>, usages: ContentType -> seq<ContentRef>): seq<ContentRef> {
    if types == [] then []
    else (if Eligible(types[0]) then usages(types[0]) else []) + EligibleImages(types[1..], usages)
  }

  /** A reference is swept exactly when some eligible content type lists it. */
  lemma {:induction false} EligibleImagesExactly(types: seq<ContentType>, usages: ContentType -> seq<ContentRef>, r: ContentRef)
    ensures r in EligibleImages(types, usages) <==> exists ct :: ct in types && Eligible(ct) && r in usages(ct)
  {
    if types != [] {
      EligibleImagesExactly(types[1..], usages, r);
      if exists ct :: ct in types[1..] && Eligible(ct) && r in usages(ct) {
        var ct :| ct in types[1..] && Eligible(ct) && r in usages(ct);
        assert ct in types;
      }
      if exists ct :: ct in types && Eligible(ct) && r in usages(ct) {
        var ct :| ct in types && Eligible(ct) && r in usages(ct);
        if ct != types[0] {
          assert ct in types[1..];
        }
      }
    }
  }

  /** What the content repository hands out for a reference. */
  datatype StoredImage = StoredImage(
    properties: seq<Property>,
    binaryData: seq<Byte>,
    fields: Fields,
    status: VersionStatus)

  /** One call of the repository's `Save`. */
  datatype SavedContent = SavedContent(link: ContentRef, fields: Fields, action: SaveAction)

  /** A status the job reports through `OnStatusChanged`; `StatusText` is the exact text. */
  datatype JobStatus = Preparing | Handled(count: nat)

  function StatusText(status: JobStatus): string {
    match status
    case Preparing => "Preparing to auto-tag all images"
    case Handled(cnt) => "Handled " + NatToString(cnt) + " images "
  }

  const NotEnabledMessage: string := "Vision is not enabled in app settings"
  const StopCalledMessage: string := "Stop of job was called"

  function StoppedMessage(cnt: nat): string {
    "Job stopped - " + NatToString(cnt) + " images tagged."
  }

  function CompletedMessage(cnt: nat): string {
    "Completed tagging " + NatToString(cnt) + " images"
  }

  /** The progress statuses after `k` items: "Handled 1 images ", ..., "Handled k images ". */
  function ProgressMessages(k: nat): (msgs: seq<JobStatus>)
    ensures |msgs| == k
  {
    if k == 0 then [] else ProgressMessages(k - 1) + [Handled(k)]
  }

  /** The i-th progress status reports i + 1 items handled. */
  lemma {:induction false} ProgressMessagesCount(k: nat, i: nat)
    requires i < k
    ensures ProgressMessages(k)[i] == Handled(i + 1)
  {
    if i < k - 1 {
      ProgressMessagesCount(k - 1, i);
    }
  }

  /** What the job saves for one reference: the enriched clone, with the action its status calls for. */
  function SaveOf(h: VisionHandler, link: ContentRef, repository: ContentRef -> StoredImage): SavedContent {
    var s := repository(link);
    SavedContent(link, Enriched(h, s.properties, s.binaryData, s.fields), ActionFor(s.status))
  }

  /** The saves for a run of references, in order. */
  function SavesFor(h: VisionHandler, links: seq<ContentRef>, repository: ContentRef -> StoredImage): seq<SavedContent> {
    seq(|links|, i requires 0 <= i < |links| => SaveOf(h, links[i], repository))
  }

  /** Saving one more item appends its save. */
  lemma SavesForSnoc(h: VisionHandler, links: seq<ContentRef>, link: ContentRef, repository: ContentRef -> StoredImage)
    ensures SavesFor(h, links + [link], repository) == SavesFor(h, links, repository) + [SaveOf(h, link, repository)]
  {
  }

  // ---- the run's outcome ----
  // `stopAt` places the one observable arrival of `Stop()` from another thread: `Some(k)` with
  // k < n means during item k (before its stop check), `Some(n)` means after the last check,
  // anything larger or `None` means not during this run. `stoppedBefore` is the flag on entry.

  /** The index of the first item whose stop check finds the flag set, if any. */
  function FirstStopSeen(n: nat, stoppedBefore: bool, stopAt: Option<nat>): (k: Option<nat>)
    ensures k.Some? ==> k.value < n
  {
    if n == 0 then None
    else if stoppedBefore then Some(0)
    else if stopAt.Some? && stopAt.value < n then Some(stopAt.value)
    else None
  }

  /** How many items an enabled run saves. */
  function HandledCount(n: nat, stoppedBefore: bool, stopAt: Option<nat>): nat {
    match FirstStopSeen(n, stoppedBefore, stopAt)
    case Some(k) => k + 1
    case None => n
  }

  /** The message `Execute` returns. */
  function FinalMessage(enabled: bool, n: nat, stoppedBefore: bool, stopAt: Option<nat>): string {
    if !enabled then NotEnabledMessage
    else match FirstStopSeen(n, stoppedBefore, stopAt)
      case Some(k) => StoppedMessage(k + 1)
      case None =>
        if stoppedBefore || (stopAt.Some? && stopAt.value <= n) then StopCalledMessage
        else CompletedMessage(n)
  }

  /** Whether `Stop()` arrives while the run is still going. */
  predicate StopArrives(enabled: bool, n: nat, stoppedBefore: bool, stopAt: Option<nat>) {
    enabled && stopAt.Some? &&
    stopAt.value <= (match FirstStopSeen(n, stoppedBefore, stopAt) case Some(k) => k case None => n)
  }

  /** A number framed by a fixed prefix and suffix can be read back, so the framing is injective. */
  lemma FramedNumberInjective(p: string, q: string, a: nat, b: nat)
    requires p + NatToString(a) + q == p + NatToString(b) + q
    ensures a == b
  {
    var sa, sb := NatToString(a), NatToString(b);
    var m := p + sa + q;
    assert |sa| == |sb|;
    assert sa == m[|p|..|p| + |sa|];
    assert sb == (p + sb + q)[|p|..|p| + |sb|];
    ParseNatToString(a);
    ParseNatToString(b);
  }

  /** The four terminal messages and the statuses are told apart by their first letter. */
  lemma TerminalMessagesDistinct(a: nat, b: nat, st: JobStatus)
    ensures StoppedMessage(a) != CompletedMessage(b)
    ensures StoppedMessage(a) != StopCalledMessage && StoppedMessage(a) != NotEnabledMessage
    ensures CompletedMessage(b) != StopCalledMessage && CompletedMessage(b) != NotEnabledMessage
    ensures StopCalledMessage != NotEnabledMessage
    ensures StatusText(st) !in {StoppedMessage(a), CompletedMessage(b), StopCalledMessage, NotEnabledMessage}
  {
    assert StoppedMessage(a)[0] == 'J' && CompletedMessage(b)[0] == 'C' && StatusText(st)[0] in "PH";
  }

  /** Different counts give different terminal messages. */
  lemma CountedMessagesInjective(a: nat, b: nat)
    ensures StoppedMessage(a) == StoppedMessage(b) <==> a == b
    ensures CompletedMessage(a) == CompletedMessage(b) <==> a == b
  {
    if StoppedMessage(a) == StoppedMessage(b) {
      FramedNumberInjective("Job stopped - ", " images tagged.", a, b);
    }
    if CompletedMessage(a) == CompletedMessage(b) {
      FramedNumberInjective("Completed tagging ", " images", a, b);
    }
  }

  /** Distinct statuses are reported with distinct texts. */
  lemma StatusTextInjective(s: JobStatus, t: JobStatus)
    ensures StatusText(s) == StatusText(t) <==> s == t
  {
    if StatusText(s) == StatusText(t) {
      assert StatusText(s)[0] == StatusText(t)[0];
      if s.Handled? && t.Handled? {
        FramedNumberInjective("Handled ", " images ", s.count, t.count);
      }
    }
  }

  /** The terminal message says how the run ended: not enabled; stopped with the number of items
      handled so far; stop requested where no check saw it (no items, or after the last
      check); or completed with every eligible item handled. */
  lemma OutcomeCases(enabled: bool, n: nat, stoppedBefore: bool, stopAt: Option<nat>)
    ensures HandledCount(n, stoppedBefore, stopAt) <= n
    ensures !enabled ==> FinalMessage(enabled, n, stoppedBefore, stopAt) == NotEnabledMessage
    ensures enabled && stoppedBefore && n > 0 ==>
      HandledCount(n, stoppedBefore, stopAt) == 1 && FinalMessage(enabled, n, stoppedBefore, stopAt) == StoppedMessage(1)
    ensures enabled && !stoppedBefore && stopAt.Some? && stopAt.value < n ==>
      HandledCount(n, stoppedBefore, stopAt) == stopAt.value + 1 &&
      FinalMessage(enabled, n, stoppedBefore, stopAt) == StoppedMessage(stopAt.value + 1)
    ensures enabled ==>
      (FinalMessage(enabled, n, stoppedBefore, stopAt) == CompletedMessage(n) <==>
       !stoppedBefore && (stopAt.None? || stopAt.value > n))
    ensures enabled ==>
      (FinalMessage(enabled, n, stoppedBefore, stopAt) == StopCalledMessage <==>
       (stoppedBefore && n == 0) || (!stoppedBefore && stopAt == Some(n)))
    ensures FinalMessage(enabled, n, stoppedBefore, stopAt) == CompletedMessage(n) ==>
      HandledCount(n, stoppedBefore, stopAt) == n
  {
    var m := FinalMessage(enabled, n, stoppedBefore, stopAt);
    var k := HandledCount(n, stoppedBefore, stopAt);
    TerminalMessagesDistinct(k, n, Preparing);
    if enabled && FirstStopSeen(n, stoppedBefore, stopAt).Some? {
      assert m == StoppedMessage(k);
    }
  }

  /** A stop signalled while item 1 of 5 is being handled ends the run with exactly one image
      handled. */
  lemma StopAfterFirstOfFive()
    ensures HandledCount(5, false, Some(0)) == 1
    ensures FinalMessage(true, 5, false, Some(0)) == "Job stopped - 1 images tagged."
  {
    assert NatToString(1) == "1";
  }

  /** `VisionTaggingJob`: its stop flag, and the status messages and saves it emits. */
  class VisionTaggingJob {
    var stopSignaled: bool
    /** Every `OnStatusChanged` call, in order, as the status it reports. */
    var statusLog: seq<JobStatus>
    /** Every `Save` of the content repository, in order. */
    var saved: seq<SavedContent>

    constructor ()
      ensures !stopSignaled && statusLog == [] && saved == []
    {
      stopSignaled := false;
      statusLog := [];
      saved := [];
    }

    /** `Stop()`: raises the flag and does nothing else; so it never lowers it and a second call
        changes nothing. */
    method Stop()
      modifies this`stopSignaled
      ensures stopSignaled
    {
      stopSignaled := true;
    }

    /** The clone of the stored item, enriched by the handler, with the save action its status
        calls for. */
    method EnrichedClone(h: VisionHandler, imgusage: ContentRef, repository: ContentRef -> StoredImage)
      returns (record: SavedContent)
      ensures record == SaveOf(h, imgusage, repository)
    {
      var stored := repository(imgusage);
      var img := new Image(stored.properties, stored.binaryData, stored.fields);
      var _ := HandleImage(h, img);
      var action := ActionFor(stored.status);
      record := SavedContent(imgusage, img.fields, action);
    }

    /** One pass of the loop body: clone item `cnt`, enrich it, save it with the action its
        status calls for, and report progress. */
    method TagOne(h: VisionHandler, clist: seq<ContentRef>, repository: ContentRef -> StoredImage, cnt: nat,
                  ghost log0: seq<JobStatus>, ghost saved0: seq<SavedContent>)
      requires cnt < |clist|
      requires statusLog == log0 + ProgressMessages(cnt)
      requires saved == saved0 + SavesFor(h, clist[..cnt], repository)
      modifies this`saved, this`statusLog
      ensures statusLog == log0 + ProgressMessages(cnt + 1)
      ensures saved == saved0 + SavesFor(h, clist[..cnt + 1], repository)
    {
      var imgusage := clist[cnt];
      var record := EnrichedClone(h, imgusage, repository);
      saved := saved + [record];
      statusLog := statusLog + [Handled(cnt + 1)];
      assert clist[..cnt + 1] == clist[..cnt] + [imgusage];
      SavesForSnoc(h, clist[..cnt], imgusage, repository);
    }

    /** The concurrent `Stop()` of the run, when it arrives at point `at`. */
    method StopMayArrive(stopAt: Option<nat>, at: nat)
      modifies this`stopSignaled
      ensures stopSignaled == (old(stopSignaled) || stopAt == Some(at))
    {
      if stopAt == Some(at) {
        Stop();
      }
    }

    /** The loop over the eligible items: each is tagged and saved, then the stop flag is checked;
        `stopped` says whether a check found it set, and `cnt` counts the items handled. */
    method Sweep(h: VisionHandler, clist: seq<ContentRef>, repository: ContentRef -> StoredImage, stopAt: Option<nat>)
      returns (cnt: nat, stopped: bool)
      modifies this`saved, this`statusLog, this`stopSignaled
      ensures cnt == HandledCount(|clist|, old(stopSignaled), stopAt)
      ensures stopped <==> FirstStopSeen(|clist|, old(stopSignaled), stopAt).Some?
      ensures statusLog == old(statusLog) + ProgressMessages(cnt)
      ensures saved == old(saved) + SavesFor(h, clist[..cnt], repository)
      ensures stopSignaled == (old(stopSignaled) || (stopAt.Some? && stopAt.value < cnt))
    {
      cnt := 0;
      var i := 0;
      while i < |clist|
        invariant 0 <= i <= |clist| && cnt == i
        invariant statusLog == old(statusLog) + ProgressMessages(cnt)
        invariant saved == old(saved) + SavesFor(h, clist[..cnt], repository)
        invariant stopSignaled == old(stopSignaled)
        invariant i > 0 ==> !stopSignaled && (stopAt.None? || stopAt.value >= i)
      {
        TagOne(h, clist, repository, cnt, old(statusLog), old(saved));
        cnt := cnt + 1;
        StopMayArrive(stopAt, i);
        if stopSignaled {
          return cnt, true;
        }
        i := i + 1;
      }
      assert clist[..cnt] == clist;
      stopped := false;
    }

    /** `Execute()`. The backend, the content repositories and the timing of a concurrent
        `Stop()` are the parameters. */
    method Execute(h: VisionHandler, contentTypes: seq<ContentType>, contentUsage: ContentType -> seq<ContentRef>,
                   repository: ContentRef -> StoredImage, stopAt: Option<nat>)
      returns (message: string)
      modifies this
      ensures var items := EligibleImages(contentTypes, contentUsage);
        var enabled := Enabled(h.options);
        var handled := if enabled then HandledCount(|items|, old(stopSignaled), stopAt) else 0;
        && message == FinalMessage(enabled, |items|, old(stopSignaled), stopAt)
        && statusLog == old(statusLog) + [Preparing] + ProgressMessages(handled)
        && saved == old(saved) + SavesFor(h, items[..handled], repository)
        && stopSignaled == (old(stopSignaled) || StopArrives(enabled, |items|, old(stopSignaled), stopAt))
    {
      statusLog := statusLog + [Preparing];
      if !Enabled(h.options) {
        return NotEnabledMessage;
      }
      var clist := EligibleImages(contentTypes, contentUsage);
      var cnt, stopped := Sweep(h, clist, repository, stopAt);
      if stopped {
        return StoppedMessage(cnt);
      }
      StopMayArrive(stopAt, |clist|);
      if stopSignaled {
        return StopCalledMessage;
      }
      return CompletedMessage(cnt);
    }
  }
}
