/** The BRC20 comparator. Before comparing, each receipt is normalised: in
    every entry of `block`, the events whose `valid` flag is falsy are
    dropped, and the `msg` field is deleted from the events that remain. */
module Brc20Comparator {
  import opened Wrappers
  import opened Json
  import BaseComparator
  import JsonDiff

  const Label := "BRC20"

  /** Reading event['valid'] fails (KeyError or TypeError) for this event. */
  datatype NormError = EventWithoutValid(event: Json)

  /** event['valid'] can be read: the event is an object with a `valid` key. */
  predicate HasValid(ev: Json) {
    Member(ev, "valid").Some?
  }

  /** An event the normalisation keeps: its `valid` flag is present and truthy. */
  predicate IsValidEvent(ev: Json) {
    Member(ev, "valid").Some? && Truthy(Member(ev, "valid").value)
  }

  predicate HasMsg(ev: Json) {
    Member(ev, "msg").Some?
  }

  /** The events of one `block` entry, when it holds a list of them. */
  function EventsOf(entry: Json): Option<seq<Json>> {
    ArrayMember(entry, "events")
  }

  /** The entries of the receipt's `block` list. */
  function BlockOf(data: Json): Option<seq<Json>> {
    ArrayMember(data, "block")
  }

  /** The position of the first event whose `valid` flag cannot be read. */
  function FirstWithoutValid(evs: seq<Json>): (r: Option<nat>)
    ensures r.Some? ==> r.value < |evs| && !HasValid(evs[r.value])
    ensures r.Some? ==> forall q :: 0 <= q < r.value ==> HasValid(evs[q])
    ensures r.None? ==> forall q :: 0 <= q < |evs| ==> HasValid(evs[q])
  {
    if |evs| == 0 then None
    else if !HasValid(evs[0]) then Some(0)
    else match FirstWithoutValid(evs[1..])
      case None => None
      case Some(q) => Some(q + 1)
  }

  /** The events whose `valid` flag is truthy, in their original order. */
  function KeepValid(evs: seq<Json>): (r: seq<Json>)
    ensures |r| <= |evs|
  {
    if |evs| == 0 then []
    else KeepValid(evs[..|evs| - 1]) + (if IsValidEvent(evs[|evs| - 1]) then [evs[|evs| - 1]] else [])
  }

  /** `del event['msg']` where the event has that field. */
  function StripMsg(ev: Json): (r: Json)
    ensures !HasMsg(r)
    ensures r.JObj? <==> ev.JObj?
  {
    if ev.JObj? then JObj(RemoveKey(ev.fields, "msg")) else ev
  }

  function StripAll(evs: seq<Json>): (r: seq<Json>)
    ensures |r| == |evs|
    ensures forall i :: 0 <= i < |r| ==> r[i] == StripMsg(evs[i])
  {
    seq(|evs|, i requires 0 <= i < |evs| => StripMsg(evs[i]))
  }

  function CleanEvents(evs: seq<Json>): seq<Json> {
    StripAll(KeepValid(evs))
  }

  /** The first event whose `valid` flag cannot be read. */
  function FirstEventWithoutValid(evs: seq<Json>): Option<Json> {
    match FirstWithoutValid(evs)
    case None => None
    case Some(q) => Some(evs[q])
  }

  /** The first event of an entry whose `valid` flag cannot be read. */
  function EntryError(entry: Json): Option<Json> {
    match EventsOf(entry)
    case None => None
    case Some(evs) => FirstEventWithoutValid(evs)
  }

  /** The first pass over one list of events. */
  function KeptEvents(evs: seq<Json>): Result<seq<Json>, NormError> {
    match FirstEventWithoutValid(evs)
    case Some(ev) => Failure(EventWithoutValid(ev))
    case None => Success(KeepValid(evs))
  }

  /** The entry after the first pass: invalid events removed. */
  function KeepValidEntry(entry: Json): Json {
    match EventsOf(entry)
    case None => entry
    case Some(evs) => SetArrayMember(entry, "events", KeepValid(evs))
  }

  /** The entry after both passes. */
  function CleanEntry(entry: Json): Json {
    match EventsOf(entry)
    case None => entry
    case Some(evs) => SetArrayMember(entry, "events", CleanEvents(evs))
  }

  /** The position of the first entry holding an event without `valid`. */
  function FirstFaultyEntry(es: seq<Json>): (r: Option<nat>)
    ensures r.Some? ==> r.value < |es| && EntryError(es[r.value]).Some?
    ensures r.Some? ==> forall k :: 0 <= k < r.value ==> EntryError(es[k]).None?
    ensures r.None? ==> forall k :: 0 <= k < |es| ==> EntryError(es[k]).None?
  {
    if |es| == 0 then None
    else if EntryError(es[0]).Some? then Some(0)
    else match FirstFaultyEntry(es[1..])
      case None => None
      case Some(k) => Some(k + 1)
  }

  function NormalizedEntries(es: seq<Json>): Result<seq<Json>, NormError> {
    match FirstFaultyEntry(es)
    case Some(k) => Failure(EventWithoutValid(EntryError(es[k]).value))
    case None => Success(seq(|es|, k requires 0 <= k < |es| => CleanEntry(es[k])))
  }

  /** The normalised receipt, or the first event (in document order) whose
      `valid` flag cannot be read. A receipt without a `block` list is
      returned unchanged. */
  function Normalized(data: Json): (r: Result<Json, NormError>)
    ensures BlockOf(data).None? ==> r == Success(data)
    ensures r.Success? && BlockOf(data).Some? ==>
              BlockOf(r.value).Some? && |BlockOf(r.value).value| == |BlockOf(data).value|
  {
    match BlockOf(data)
    case None => Success(data)
    case Some(es) =>
      match NormalizedEntries(es)
      case Failure(e) => Failure(e)
      case Success(es') =>
        ArrayMemberSet(data, "block", es');
        Success(SetArrayMember(data, "block", es'))
  }

  /** list.remove(x): drop the first element equal to x (Python raises
      ValueError when there is none). */
  function RemoveFirst(s: seq<Json>, x: Json): (r: seq<Json>)
    requires x in s
    ensures |r| == |s| - 1
  {
    if s[0] == x then s[1..]
    else [s[0]] + RemoveFirst(s[1..], x)
  }

  /** list.remove takes away exactly one occurrence of x. */
  lemma {:induction false} RemoveFirstMultiset(s: seq<Json>, x: Json)
    requires x in s
    ensures multiset(RemoveFirst(s, x)) == multiset(s) - multiset{x}
  {
    assert s == [s[0]] + s[1..];
    if s[0] != x {
      RemoveFirstMultiset(s[1..], x);
    }
  }

  lemma {:induction false} RemoveFirstAfter(p: seq<Json>, x: Json, t: seq<Json>)
    requires x !in p
    ensures RemoveFirst(p + [x] + t, x) == p + t
  {
    if |p| == 0 {
      assert p + [x] + t == [x] + t;
    } else {
      RemoveFirstAfter(p[1..], x, t);
      assert (p + [x] + t)[1..] == p[1..] + [x] + t;
      assert [p[0]] + (p[1..] + t) == p + t;
    }
  }

  /** Every event kept is valid and comes from the input. */
  lemma {:induction false} KeepValidOnlyValid(evs: seq<Json>)
    ensures forall x :: x in KeepValid(evs) ==> x in evs && IsValidEvent(x)
  {
    if |evs| > 0 {
      KeepValidOnlyValid(evs[..|evs| - 1]);
    }
  }

  lemma KeepValidSnoc(evs: seq<Json>, e: nat)
    requires e < |evs|
    ensures KeepValid(evs[..e + 1]) == KeepValid(evs[..e]) + (if IsValidEvent(evs[e]) then [evs[e]] else [])
  {
    assert evs[..e + 1][..e] == evs[..e];
  }

  /** The first pass over one entry's events. The snapshot `matches` is taken
      before any removal; each invalid event is removed from the live list
      with list.remove. */
  method RemoveInvalidEvents(matches: seq<Json>) returns (r: Result<seq<Json>, NormError>)
    ensures r == KeptEvents(matches)
  {
    var current := matches;
    var e := 0;
    while e < |matches|
      invariant 0 <= e <= |matches|
      invariant current == KeepValid(matches[..e]) + matches[e..]
      invariant forall q :: 0 <= q < e ==> HasValid(matches[q])
    {
      if !HasValid(matches[e]) {
        // event['valid'] raises
        FirstWithoutValidAt(matches, e);
        return Failure(EventWithoutValid(matches[e]));
      }
      RemoveInvalidStep(matches, e, current);
      if !IsValidEvent(matches[e]) {
        current := RemoveFirst(current, matches[e]);
      }
      assert current == KeepValid(matches[..e + 1]) + matches[e + 1..];
      e := e + 1;
    }
    KeepValidAll(matches, current);
    FirstWithoutValidNone(matches);
    return Success(current);
  }

  /** The first pass over every entry of `block`, in order. */
  method RemoveInvalidEntries(original: seq<Json>) returns (r: Result<seq<Json>, NormError>)
    ensures FirstFaultyEntry(original).None? ==>
              r == Success(seq(|original|, k requires 0 <= k < |original| => KeepValidEntry(original[k])))
    ensures FirstFaultyEntry(original).Some? ==>
              r == Failure(EventWithoutValid(EntryError(original[FirstFaultyEntry(original).value]).value))
  {
    var entries := original;
    var b := 0;
    while b < |entries|
      invariant 0 <= b <= |entries| == |original|
      invariant forall k :: 0 <= k < b ==> EntryError(original[k]).None?
      invariant forall k :: 0 <= k < b ==> entries[k] == KeepValidEntry(original[k])
      invariant forall k :: b <= k < |entries| ==> entries[k] == original[k]
    {
      var events := EventsOf(entries[b]);
      if events.Some? {
        var kept := RemoveInvalidEvents(events.value);
        if kept.Failure? {
          FirstFaultyEntryAt(original, b);
          return Failure(kept.error);
        }
        entries := entries[b := SetArrayMember(entries[b], "events", kept.value)];
      }
      b := b + 1;
    }
    FirstFaultyEntryNone(original);
    assert entries == seq(|original|, k requires 0 <= k < |original| => KeepValidEntry(original[k]));
    return Success(entries);
  }

  /** The entry after the second pass alone. */
  function StripEntry(entry: Json): Json {
    match EventsOf(entry)
    case None => entry
    case Some(evs) => SetArrayMember(entry, "events", StripAll(evs))
  }

  /** The second pass over one entry's events: `msg` is deleted where found. */
  method DeleteMsgFields(events: seq<Json>) returns (r: seq<Json>)
    ensures r == StripAll(events)
  {
    r := events;
    var e := 0;
    while e < |r|
      invariant 0 <= e <= |r| == |events|
      invariant forall q :: 0 <= q < e ==> r[q] == StripMsg(events[q])
      invariant forall q :: e <= q < |r| ==> r[q] == events[q]
    {
      if HasMsg(r[e]) {
        r := r[e := StripMsg(r[e])];
      } else if r[e].JObj? {
        RemoveAbsentKey(r[e].fields, "msg");
      }
      e := e + 1;
    }
  }

  /** The second pass over every entry of `block`. */
  method DeleteMsgEntries(original: seq<Json>) returns (r: seq<Json>)
    ensures r == seq(|original|, k requires 0 <= k < |original| => StripEntry(original[k]))
  {
    r := original;
    var b := 0;
    while b < |r|
      invariant 0 <= b <= |r| == |original|
      invariant forall k :: 0 <= k < b ==> r[k] == StripEntry(original[k])
      invariant forall k :: b <= k < |r| ==> r[k] == original[k]
    {
      var events := EventsOf(r[b]);
      if events.Some? {
        var stripped := DeleteMsgFields(events.value);
        r := r[b := SetArrayMember(r[b], "events", stripped)];
      }
      b := b + 1;
    }
  }

  /** _normalize_data: the first pass over every entry, then the second. */
  method NormalizeData(data: Json) returns (r: Result<Json, NormError>)
    ensures r == Normalized(data)
  {
    var block := BlockOf(data);
    if block.None? {
      return Success(data);
    }
    var original := block.value;
    var kept := RemoveInvalidEntries(original);
    if kept.Failure? {
      return Failure(kept.error);
    }
    var entries := DeleteMsgEntries(kept.value);
    forall k | 0 <= k < |original|
      ensures entries[k] == CleanEntry(original[k])
    {
      KeepValidThenStrip(original[k]);
    }
    assert entries == seq(|original|, k requires 0 <= k < |original| => CleanEntry(original[k]));
    return Success(SetArrayMember(data, "block", entries));
  }

  /** One step of the first pass keeps `current` equal to the valid events
      seen so far followed by those not yet seen. */
  lemma RemoveInvalidStep(matches: seq<Json>, e: nat, current: seq<Json>)
    requires e < |matches| && HasValid(matches[e])
    requires current == KeepValid(matches[..e]) + matches[e..]
    ensures matches[e] in current
    ensures IsValidEvent(matches[e]) ==> current == KeepValid(matches[..e + 1]) + matches[e + 1..]
    ensures !IsValidEvent(matches[e]) ==> RemoveFirst(current, matches[e]) == KeepValid(matches[..e + 1]) + matches[e + 1..]
  {
    KeepValidSnoc(matches, e);
    assert matches[e..] == [matches[e]] + matches[e + 1..];
    assert current[|KeepValid(matches[..e])|] == matches[e];
    if !IsValidEvent(matches[e]) {
      assert current == KeepValid(matches[..e]) + [matches[e]] + matches[e + 1..];
      KeepValidOnlyValid(matches[..e]);
      RemoveFirstAfter(KeepValid(matches[..e]), matches[e], matches[e + 1..]);
    }
  }

  lemma KeepValidAll(matches: seq<Json>, current: seq<Json>)
    requires current == KeepValid(matches[..|matches|]) + matches[|matches|..]
    ensures current == KeepValid(matches)
  {
    assert matches[..|matches|] == matches;
    assert current == KeepValid(matches) + [];
  }

  lemma FirstWithoutValidAt(evs: seq<Json>, e: nat)
    requires e < |evs| && !HasValid(evs[e])
    requires forall q :: 0 <= q < e ==> HasValid(evs[q])
    ensures FirstWithoutValid(evs) == Some(e)
  {
  }

  lemma FirstWithoutValidNone(evs: seq<Json>)
    requires forall q :: 0 <= q < |evs| ==> HasValid(evs[q])
    ensures FirstWithoutValid(evs).None?
  {
  }

  lemma FirstFaultyEntryAt(es: seq<Json>, b: nat)
    requires b < |es| && EntryError(es[b]).Some?
    requires forall k :: 0 <= k < b ==> EntryError(es[k]).None?
    ensures FirstFaultyEntry(es) == Some(b)
  {
  }

  lemma FirstFaultyEntryNone(es: seq<Json>)
    requires forall k :: 0 <= k < |es| ==> EntryError(es[k]).None?
    ensures FirstFaultyEntry(es).None?
  {
  }

  /** Both passes, one after the other, give the clean entry. */
  lemma KeepValidThenStrip(entry: Json)
    ensures StripEntry(KeepValidEntry(entry)) == CleanEntry(entry)
  {
    if EventsOf(entry).Some? {
      ArrayMemberSet(entry, "events", KeepValid(EventsOf(entry).value));
      SetArrayMemberTwice(entry, "events", KeepValid(EventsOf(entry).value), CleanEvents(EventsOf(entry).value));
    }
  }

  // Properties of the normalisation

  /** Every event of every entry is an object with a `valid` key. */
  ghost predicate AllEventsReadable(data: Json) {
    BlockOf(data).Some? ==>
      forall k, q :: 0 <= k < |BlockOf(data).value| && EventsOf(BlockOf(data).value[k]).Some? &&
                     0 <= q < |EventsOf(BlockOf(data).value[k]).value| ==>
                       HasValid(EventsOf(BlockOf(data).value[k]).value[q])
  }

  /** Every event left is valid and has no `msg` field. */
  ghost predicate IsClean(data: Json) {
    BlockOf(data).Some? ==>
      forall k, q :: 0 <= k < |BlockOf(data).value| && EventsOf(BlockOf(data).value[k]).Some? &&
                     0 <= q < |EventsOf(BlockOf(data).value[k]).value| ==>
                       IsValidEvent(EventsOf(BlockOf(data).value[k]).value[q]) &&
                       !HasMsg(EventsOf(BlockOf(data).value[k]).value[q])
  }

  /** The normalisation fails exactly when some event has no readable
      `valid` flag, and then it reports such an event. */
  lemma NormalizedFailsIff(data: Json)
    ensures Normalized(data).Success? <==> AllEventsReadable(data)
    ensures Normalized(data).Failure? ==> !HasValid(Normalized(data).error.event)
  {
    if BlockOf(data).Some? {
      var es := BlockOf(data).value;
      if AllEventsReadable(data) {
        forall k | 0 <= k < |es| ensures EntryError(es[k]).None? {
          if EventsOf(es[k]).Some? {
            FirstWithoutValidNone(EventsOf(es[k]).value);
          }
        }
        FirstFaultyEntryNone(es);
      }
    }
  }

  lemma StripMsgKeepsOthers(ev: Json, k: string)
    requires k != "msg"
    ensures Member(StripMsg(ev), k) == Member(ev, k)
  {
    if ev.JObj? {
      GetRemoveKey(ev.fields, "msg", k);
    }
  }

  lemma StripMsgWithoutMsg(ev: Json)
    requires !HasMsg(ev)
    ensures StripMsg(ev) == ev
  {
    if ev.JObj? {
      RemoveAbsentKey(ev.fields, "msg");
    }
  }

  lemma {:induction false} KeepValidAllValid(evs: seq<Json>)
    requires forall q :: 0 <= q < |evs| ==> IsValidEvent(evs[q])
    ensures KeepValid(evs) == evs
  {
    if |evs| > 0 {
      KeepValidAllValid(evs[..|evs| - 1]);
      assert evs[..|evs| - 1] + [evs[|evs| - 1]] == evs;
    }
  }

  /** The first pass keeps exactly the valid events, each as often as it
      occurs. */
  lemma {:induction false} KeepValidExactly(evs: seq<Json>)
    ensures forall x :: multiset(KeepValid(evs))[x] == if IsValidEvent(x) then multiset(evs)[x] else 0
  {
    if |evs| > 0 {
      var init := evs[..|evs| - 1];
      KeepValidExactly(init);
      assert evs == init + [evs[|evs| - 1]];
      assert multiset(evs) == multiset(init) + multiset{evs[|evs| - 1]};
    }
  }

  lemma {:induction false} KeepValidAppend(a: seq<Json>, b: seq<Json>)
    ensures KeepValid(a + b) == KeepValid(a) + KeepValid(b)
    decreases |b|
  {
    if |b| == 0 {
      assert a + b == a;
    } else {
      var b' := b[..|b| - 1];
      KeepValidAppend(a, b');
      assert (a + b)[..|a + b| - 1] == a + b';
      assert (a + b)[|a + b| - 1] == b[|b| - 1];
    }
  }

  lemma FirstEventWithoutValidAppend(a: seq<Json>, b: seq<Json>)
    ensures FirstEventWithoutValid(a + b) ==
              if FirstEventWithoutValid(a).Some? then FirstEventWithoutValid(a) else FirstEventWithoutValid(b)
  {
    match FirstWithoutValid(a)
    case Some(q) =>
      FirstWithoutValidAt(a + b, q);
    case None =>
      match FirstWithoutValid(b)
      case Some(q) =>
        FirstWithoutValidAt(a + b, |a| + q);
      case None =>
        FirstWithoutValidNone(a + b);
  }

  /** An event whose `valid` flag is falsy leaves no trace: the result, and
      the error if any, are those of the list without that event. */
  lemma InvalidEventIgnored(pre: seq<Json>, x: Json, post: seq<Json>)
    requires HasValid(x) && !IsValidEvent(x)
    ensures KeptEvents(pre + [x] + post) == KeptEvents(pre + post)
    ensures CleanEvents(pre + [x] + post) == CleanEvents(pre + post)
  {
    assert [x][..0] == [];
    assert KeepValid([x]) == [];
    KeepValidAppend(pre, [x]);
    KeepValidAppend(pre + [x], post);
    KeepValidAppend(pre, post);
    assert KeepValid(pre + [x] + post) == KeepValid(pre + post);
    FirstWithoutValidNone([x]);
    assert FirstEventWithoutValid([x]).None?;
    FirstEventWithoutValidAppend(pre, [x]);
    FirstEventWithoutValidAppend(pre + [x], post);
    FirstEventWithoutValidAppend(pre, post);
    assert FirstEventWithoutValid(pre + [x] + post) == FirstEventWithoutValid(pre + post);
  }

  lemma CleanEntryEvents(entry: Json)
    ensures EventsOf(entry).None? ==> CleanEntry(entry) == entry
    ensures EventsOf(entry).Some? ==> EventsOf(CleanEntry(entry)) == Some(CleanEvents(EventsOf(entry).value))
  {
    if EventsOf(entry).Some? {
      ArrayMemberSet(entry, "events", CleanEvents(EventsOf(entry).value));
    }
  }

  /** A successful normalisation leaves only valid events, none with `msg`. */
  lemma NormalizedIsClean(data: Json)
    requires Normalized(data).Success?
    ensures IsClean(Normalized(data).value)
  {
    if BlockOf(data).Some? {
      var es := BlockOf(data).value;
      var es' := NormalizedEntries(es).value;
      ArrayMemberSet(data, "block", es');
      forall k, q | 0 <= k < |es'| && EventsOf(es'[k]).Some? && 0 <= q < |EventsOf(es'[k]).value|
        ensures IsValidEvent(EventsOf(es'[k]).value[q]) && !HasMsg(EventsOf(es'[k]).value[q])
      {
        CleanEntryEvents(es[k]);
        var evs := EventsOf(es[k]).value;
        var x := KeepValid(evs)[q];
        assert x in KeepValid(evs);
        KeepValidOnlyValid(evs);
        assert EventsOf(es'[k]).value[q] == StripMsg(x);
        StripMsgKeepsOthers(x, "valid");
      }
    }
  }

  /** A clean receipt is its own normalisation. */
  lemma CleanIsFixed(data: Json)
    requires IsClean(data)
    ensures Normalized(data) == Success(data)
  {
    if BlockOf(data).Some? {
      var es := BlockOf(data).value;
      forall k | 0 <= k < |es| ensures EntryError(es[k]).None? && CleanEntry(es[k]) == es[k] {
        if EventsOf(es[k]).Some? {
          var evs := EventsOf(es[k]).value;
          FirstWithoutValidNone(evs);
          KeepValidAllValid(evs);
          forall q | 0 <= q < |evs| ensures StripMsg(evs[q]) == evs[q] {
            StripMsgWithoutMsg(evs[q]);
          }
          assert StripAll(evs) == evs;
          SetArrayMemberSame(es[k], "events");
        }
      }
      FirstFaultyEntryNone(es);
      assert NormalizedEntries(es).value == es;
      SetArrayMemberSame(data, "block");
    }
  }

  /** Normalising twice is normalising once. */
  lemma NormalizeIdempotent(data: Json)
    requires Normalized(data).Success?
    ensures Normalized(Normalized(data).value) == Normalized(data)
  {
    NormalizedIsClean(data);
    CleanIsFixed(Normalized(data).value);
  }

  /** Outside `block`, the receipt is untouched. */
  lemma NormalizedKeepsOtherKeys(data: Json, k: string)
    requires Normalized(data).Success? && k != "block"
    ensures Member(Normalized(data).value, k) == Member(data, k)
  {
    if BlockOf(data).Some? {
      MemberSetArrayMember(data, "block", NormalizedEntries(BlockOf(data).value).value, k);
    }
  }

  /** Entry by entry: the same number of entries, each keeping every field
      but `events`, whose list is the cleaned list. */
  lemma NormalizedEntry(data: Json, b: nat, k: string)
    requires Normalized(data).Success? && BlockOf(data).Some? && b < |BlockOf(data).value|
    requires k != "events"
    ensures BlockOf(Normalized(data).value).Some?
    ensures |BlockOf(Normalized(data).value).value| == |BlockOf(data).value|
    ensures Member(BlockOf(Normalized(data).value).value[b], k) == Member(BlockOf(data).value[b], k)
    ensures EventsOf(BlockOf(data).value[b]).None? ==>
              BlockOf(Normalized(data).value).value[b] == BlockOf(data).value[b]
    ensures EventsOf(BlockOf(data).value[b]).Some? ==>
              EventsOf(BlockOf(Normalized(data).value).value[b]) == Some(CleanEvents(EventsOf(BlockOf(data).value[b]).value))
  {
    var es := BlockOf(data).value;
    ArrayMemberSet(data, "block", NormalizedEntries(es).value);
    CleanEntryEvents(es[b]);
    if EventsOf(es[b]).Some? {
      MemberSetArrayMember(es[b], "events", CleanEvents(EventsOf(es[b]).value), k);
    }
  }

  /** The receipt with the events of entry b replaced by evs. */
  function WithEventsAt(data: Json, b: nat, evs: seq<Json>): Json
    requires BlockOf(data).Some? && b < |BlockOf(data).value| && EventsOf(BlockOf(data).value[b]).Some?
  {
    var es := BlockOf(data).value;
    SetArrayMember(data, "block", es[b := SetArrayMember(es[b], "events", evs)])
  }

  /** Adding one event with a falsy `valid` flag to any entry does not
      change the normalised receipt. */
  lemma NormalizationIgnoresInvalidEvent(data: Json, b: nat, pre: seq<Json>, x: Json, post: seq<Json>)
    requires BlockOf(data).Some? && b < |BlockOf(data).value| && EventsOf(BlockOf(data).value[b]).Some?
    requires HasValid(x) && !IsValidEvent(x)
    ensures Normalized(WithEventsAt(data, b, pre + [x] + post)) == Normalized(WithEventsAt(data, b, pre + post))
  {
    var es := BlockOf(data).value;
    var e1 := SetArrayMember(es[b], "events", pre + [x] + post);
    var e2 := SetArrayMember(es[b], "events", pre + post);
    var es1 := es[b := e1];
    var es2 := es[b := e2];
    ArrayMemberSet(data, "block", es1);
    ArrayMemberSet(data, "block", es2);
    ArrayMemberSet(es[b], "events", pre + [x] + post);
    ArrayMemberSet(es[b], "events", pre + post);
    InvalidEventIgnored(pre, x, post);
    SetArrayMemberTwice(es[b], "events", pre + [x] + post, CleanEvents(pre + post));
    SetArrayMemberTwice(es[b], "events", pre + post, CleanEvents(pre + post));
    assert EntryError(e1) == EntryError(e2);
    assert CleanEntry(e1) == CleanEntry(e2);
    forall k | 0 <= k < |es| ensures EntryError(es1[k]) == EntryError(es2[k]) && CleanEntry(es1[k]) == CleanEntry(es2[k]) {
    }
    assert FirstFaultyEntry(es1) == FirstFaultyEntry(es2) by {
      FirstFaultyEntrySame(es1, es2);
    }
    if FirstFaultyEntry(es1).None? {
      assert seq(|es1|, k requires 0 <= k < |es1| => CleanEntry(es1[k]))
          == seq(|es2|, k requires 0 <= k < |es2| => CleanEntry(es2[k]));
    }
    assert NormalizedEntries(es1) == NormalizedEntries(es2);
    if NormalizedEntries(es1).Success? {
      SetArrayMemberTwice(data, "block", es1, NormalizedEntries(es1).value);
      SetArrayMemberTwice(data, "block", es2, NormalizedEntries(es2).value);
    }
  }

  lemma {:induction false} FirstFaultyEntrySame(es1: seq<Json>, es2: seq<Json>)
    requires |es1| == |es2|
    requires forall k :: 0 <= k < |es1| ==> EntryError(es1[k]) == EntryError(es2[k])
    ensures FirstFaultyEntry(es1) == FirstFaultyEntry(es2)
  {
    if |es1| > 0 {
      FirstFaultyEntrySame(es1[1..], es2[1..]);
    }
  }

  // The comparison

  /** compare_block_receipts: normalise both receipts (either may fail),
      then draw the shared verdict. */
  function CompareBlockReceipts(primary: Json, secondary: Json): (r: Result<BaseComparator.Verdict, NormError>)
    ensures r.Success? <==> Normalized(primary).Success? && Normalized(secondary).Success?
    ensures Normalized(primary).Failure? ==> r == Failure(Normalized(primary).error)
    ensures Normalized(primary).Success? && Normalized(secondary).Failure? ==> r == Failure(Normalized(secondary).error)
    ensures r.Success? ==> (r.value.matched <==> r.value.discrepancies == [])
    ensures r.Success? ==>
              var p := Normalized(primary).value;
              var s := Normalized(secondary).value;
              && (!Truthy(p) && !Truthy(s) ==> r.value == BaseComparator.Verdict(true, []))
              && (!Truthy(p) && Truthy(s) ==>
                    r.value == BaseComparator.Verdict(false, [BaseComparator.MissingPrimary(Label)]))
              && (Truthy(p) && !Truthy(s) ==>
                    r.value == BaseComparator.Verdict(false, [BaseComparator.MissingSecondary(Label)]))
              && (Truthy(p) && Truthy(s) ==>
                    && (r.value.matched <==> Equiv(p, s))
                    && r.value.discrepancies == BaseComparator.Messages(Label, JsonDiff.Diff([], p, s))
                    && forall m :: m in r.value.discrepancies ==> BaseComparator.DiscrepancyPrefix(Label) <= m)
    ensures r.Success? ==>
              r.value == BaseComparator.Judge(Label, Normalized(primary).value, Normalized(secondary).value)
  {
    var p :- Normalized(primary);
    var s :- Normalized(secondary);
    Success(BaseComparator.Judge(Label, p, s))
  }

  /** Any readable receipt matches itself. */
  lemma CompareSelf(data: Json)
    requires Normalized(data).Success?
    ensures CompareBlockReceipts(data, data) == Success(BaseComparator.Verdict(true, []))
  {
    BaseComparator.JudgeSelf(Label, Normalized(data).value);
  }

  /** A receipt holding one extra event with a falsy `valid` flag still
      matches the receipt without it. */
  lemma InvalidEventOnOneSide(data: Json, b: nat, pre: seq<Json>, x: Json, post: seq<Json>)
    requires BlockOf(data).Some? && b < |BlockOf(data).value| && EventsOf(BlockOf(data).value[b]).Some?
    requires HasValid(x) && !IsValidEvent(x)
    requires AllEventsReadable(WithEventsAt(data, b, pre + post))
    ensures CompareBlockReceipts(WithEventsAt(data, b, pre + [x] + post), WithEventsAt(data, b, pre + post))
              == Success(BaseComparator.Verdict(true, []))
  {
    NormalizationIgnoresInvalidEvent(data, b, pre, x, post);
    NormalizedFailsIff(WithEventsAt(data, b, pre + post));
    BaseComparator.JudgeSelf(Label, Normalized(WithEventsAt(data, b, pre + post)).value);
  }
}
