/**
 * What one event does: which keys of the user's entry change and how, what
 * happens to the counters, that other users' entries are untouched, and that
 * the store invariant `Consistent` is kept.
 */
module Steps {
  import opened ReceiptIds
  import opened TextInput
  import opened Sessions
  import opened Machine

  /** A follow event empties the user's entry, greets, and changes nothing else. */
  lemma FollowResets(s: State, u: UserId)
    ensures var o := FollowStep(s, u);
            && u in o.state.sessions && o.state.sessions[u] == Empty
            && o.state.counters == s.counters
            && o.effects == [Reply([Fixed(Welcome)])]
            && o.raised.None?
  {
  }

  /**
   * An image event allocates a receipt id only when the entry has none, and
   * then raises that day's counter by exactly one (from 1 on a day with no
   * entry) and hands out a number never issued before; otherwise it keeps the
   * stored id and the counters. Either way it appends exactly one path,
   * numbered one past the previous image count, keeps the earlier images,
   * phone and pickup time, and marks consent.
   */
  lemma ImageAllocatesOnce(s: State, u: UserId, day: DayKey)
    requires WellFormed(SessionOf(s, u))
    ensures var before := SessionOf(s, u);
            var o := ImageStep(s, u, day);
            && u in o.state.sessions
            && var after := o.state.sessions[u];
            && after.receiptId.Some?
            && var rid := after.receiptId.value;
            && (before.receiptId.Some? ==>
                  o.state.counters == s.counters && before.receiptId == after.receiptId)
            && (before.receiptId.None? ==>
                  && o.state.counters == s.counters[day := CountOn(s.counters, day) + 1]
                  && o.state.counters[day] == CountOn(s.counters, day) + 1
                  && (day !in s.counters ==> o.state.counters[day] == 1)
                  && rid == ReceiptId(day, o.state.counters[day])
                  && rid !in Issued(s.counters))
            && after.images == before.images + [ImagePath(rid, |before.images| + 1)]
            && after.consent
            && after.phone == before.phone && after.pickupTime == before.pickupTime
            && o.effects == [SaveImage(ImagePath(rid, |before.images| + 1)), Reply([Fixed(ImageReceived)])]
            && o.raised.None?
  {
    if SessionOf(s, u).receiptId.None? {
      AllocationFresh(s.counters, day);
    }
  }

  /**
   * Before consent, a text whose stripped, lower-cased form is a consent word
   * sets consent; any other text leaves the entry as it was (created empty if
   * it was missing) and asks for consent.
   */
  lemma ConsentStep(s: State, u: UserId, raw: string)
    requires !SessionOf(s, u).consent
    ensures var before := SessionOf(s, u);
            var o := TextStep(s, u, raw);
            && (IsConsent(Strip(raw)) ==>
                  o == Outcome(State(s.sessions[u := before.(consent := true)], s.counters),
                               [Reply([Fixed(ConsentThanks), ImageMessage(GuideImageUrl, GuideImageUrl)])], None))
            && (!IsConsent(Strip(raw)) ==>
                  o == Outcome(State(s.sessions[u := before], s.counters), [Reply([Fixed(ConsentRequired)])], None))
  {
    var before := SessionOf(s, u);
    UpdateTwice(s.sessions, u, before, before.(consent := true));
  }

  /**
   * With consent and no phone, the stripped text becomes the phone number and
   * nothing else changes; no image needs to have arrived.
   */
  lemma PhoneStep(s: State, u: UserId, raw: string)
    requires SessionOf(s, u).consent && SessionOf(s, u).phone.None?
    ensures TextStep(s, u, raw)
            == Outcome(State(s.sessions[u := SessionOf(s, u).(phone := Some(Strip(raw)))], s.counters),
                       [Reply([Fixed(PhoneConfirmed)])], None)
  {
    var before := SessionOf(s, u);
    UpdateTwice(s.sessions, u, before, before.(phone := Some(Strip(raw))));
  }

  /**
   * With phone stored and no pickup time, the text finalises: one upload per
   * image in order, named `{id}_{i}.jpg` with the receipt id, phone and pickup
   * time as properties, then the summary reply, then the entry is deleted.
   * Without a receipt id the lookup raises KeyError instead: the pickup time
   * stays stored, nothing is uploaded or sent, and the entry is kept.
   */
  lemma PickupStep(s: State, u: UserId, raw: string)
    requires WellFormed(SessionOf(s, u))
    requires SessionOf(s, u).consent && SessionOf(s, u).phone.Some? && SessionOf(s, u).pickupTime.None?
    ensures var before := SessionOf(s, u);
            var o := TextStep(s, u, raw);
            var pickup := Strip(raw);
            && o.state.counters == s.counters
            && (before.receiptId.Some? ==>
                  var rid := before.receiptId.value;
                  var n := |before.images|;
                  && u !in o.state.sessions
                  && o.raised.None?
                  && n >= 1
                  && |o.effects| == n + 1
                  && (forall i :: 0 <= i < n ==>
                        o.effects[i] == Upload(UploadName(rid, i + 1), ImagePath(rid, i + 1), [DriveFolder],
                                               Properties(rid, before.phone.value, pickup)))
                  && o.effects[n] == ConfirmationReply(rid, n, before.phone.value, pickup))
            && (before.receiptId.None? ==>
                  && o.raised == Some(KeyError("receipt_id"))
                  && o.effects == []
                  && u in o.state.sessions
                  && o.state.sessions[u] == before.(pickupTime := Some(pickup)))
  {
  }

  /** Once the pickup time is stored, a text changes nothing and sends nothing. */
  lemma StalledIgnoresText(s: State, u: UserId, raw: string)
    requires u in s.sessions && StageOf(s.sessions[u]) == Stalled
    ensures TextStep(s, u, raw) == Outcome(s, [], None)
  {
    assert s.sessions[u := s.sessions[u]] == s.sessions;
  }

  /**
   * The text handler's branch is the stage read off the keys present:
   * consent or a request for it while awaiting consent, the phone
   * confirmation while awaiting the phone, finalisation or the KeyError while
   * awaiting the pickup time, and nothing at all once stalled.
   */
  lemma TextFollowsStage(s: State, u: UserId, raw: string)
    ensures var cur := SessionOf(s, u);
            var o := TextStep(s, u, raw);
            && (StageOf(cur) == AwaitingConsent ==>
                  && o.raised.None?
                  && (IsConsent(Strip(raw)) ==>
                        o.effects == [Reply([Fixed(ConsentThanks), ImageMessage(GuideImageUrl, GuideImageUrl)])])
                  && (!IsConsent(Strip(raw)) ==> o.effects == [Reply([Fixed(ConsentRequired)])]))
            && (StageOf(cur) == AwaitingPhone ==>
                  o.raised.None? && o.effects == [Reply([Fixed(PhoneConfirmed)])])
            && (StageOf(cur) == AwaitingPickupTime ==>
                  && (o.raised.None? <==> cur.receiptId.Some?)
                  && (cur.receiptId.Some? ==>
                        && u !in o.state.sessions
                        && |o.effects| == |cur.images| + 1
                        && o.effects[|cur.images|]
                           == ConfirmationReply(cur.receiptId.value, |cur.images|, cur.phone.value, Strip(raw)))
                  && (cur.receiptId.None? ==>
                        o.raised == Some(KeyError("receipt_id")) && o.effects == []))
            && (StageOf(cur) == Stalled ==> o.raised.None? && o.effects == [])
  {
  }

  /** Every handler reads and writes only its own user's entry. */
  lemma OtherUsersUntouched(s: State, e: Event, v: UserId)
    requires v != UserOf(e)
    ensures var t := Handle(s, e).state;
            && (v in t.sessions <==> v in s.sessions)
            && (v in s.sessions ==> t.sessions[v] == s.sessions[v])
  {
    match e
    case Follow(_) =>
    case Image(_, _) =>
    case Text(_, _) =>
  }

  /**
   * Counters never go down, and only an image event moves them, by one on
   * the event's day.
   */
  lemma CountersOnlyGrow(s: State, e: Event)
    ensures var c := Handle(s, e).state.counters;
            && (forall d :: d in s.counters ==> d in c && c[d] >= s.counters[d])
            && (!e.Image? ==> c == s.counters)
            && (e.Image? ==> c == s.counters || c == s.counters[e.day := CountOn(s.counters, e.day) + 1])
  {
    match e
    case Follow(_) =>
    case Image(u, day) =>
      var c := ImageStep(s, u, day).state.counters;
      assert c == s.counters || c == s.counters[day := CountOn(s.counters, day) + 1];
    case Text(u, raw) =>
      assert TextStep(s, u, raw).state.counters == s.counters;
  }

  lemma IssuedGrows(c: map<DayKey, nat>, c': map<DayKey, nat>)
    requires forall d :: d in c ==> d in c' && c'[d] >= c[d]
    ensures Issued(c) <= Issued(c')
  {
    forall x | x in Issued(c) ensures x in Issued(c') {
      var d, k :| d in c && 1 <= k <= c[d] && ReceiptId(d, k) == x;
      assert d in c' && 1 <= k <= c'[d];
    }
  }

  /** Replacing one entry keeps the invariant when the new entry fits it. */
  lemma UpdateKeepsConsistent(s: State, u: UserId, x: Session, counters: map<DayKey, nat>)
    requires Consistent(s)
    requires forall d :: d in s.counters ==> d in counters && counters[d] >= s.counters[d]
    requires forall d :: d in counters ==> counters[d] >= 1
    requires WellFormed(x)
    requires x.receiptId.Some? ==> x.receiptId.value in Issued(counters)
    requires x.receiptId.Some? ==>
               forall v :: v in s.sessions && v != u ==> s.sessions[v].receiptId != x.receiptId
    ensures Consistent(State(s.sessions[u := x], counters))
  {
    IssuedGrows(s.counters, counters);
  }

  /** An entry that keeps its receipt id and stays well formed keeps the invariant. */
  lemma SameIdKeepsConsistent(s: State, u: UserId, x: Session)
    requires Consistent(s)
    requires WellFormed(x) && x.receiptId == SessionOf(s, u).receiptId
    ensures Consistent(s.(sessions := s.sessions[u := x]))
  {
    UpdateKeepsConsistent(s, u, x, s.counters);
  }

  lemma FollowKeepsConsistent(s: State, u: UserId)
    requires Consistent(s)
    ensures Consistent(FollowStep(s, u).state)
  {
    UpdateKeepsConsistent(s, u, Empty, s.counters);
  }

  /** A receipt id the counters have not issued is held by nobody. */
  lemma UnissuedIsUnused(s: State, rid: string)
    requires Consistent(s) && rid !in Issued(s.counters)
    ensures forall v :: v in s.sessions ==> s.sessions[v].receiptId != Some(rid)
  {
    forall v | v in s.sessions ensures s.sessions[v].receiptId != Some(rid) {
      if s.sessions[v].receiptId.Some? {
        assert s.sessions[v].receiptId.value in Issued(s.counters);
      }
    }
  }

  lemma IssuedHas(c: map<DayKey, nat>, d: DayKey, k: nat)
    requires d in c && 1 <= k <= c[d]
    ensures ReceiptId(d, k) in Issued(c)
  {
  }

  /** Recording an image under the entry's own (or a first) receipt id keeps it well formed. */
  lemma RecordImageWellFormed(before: Session, rid: string)
    requires WellFormed(before) && rid != ""
    requires before.receiptId.Some? ==> before.receiptId.value == rid
    ensures WellFormed(before.(receiptId := Some(rid),
                               images := before.images + [ImagePath(rid, |before.images| + 1)],
                               consent := true))
  {
  }

  /** An image that allocates a new receipt id keeps the invariant. */
  lemma FirstImageKeepsConsistent(s: State, u: UserId, day: DayKey)
    requires Consistent(s) && WellFormed(SessionOf(s, u)) && SessionOf(s, u).receiptId.None?
    ensures Consistent(ImageStep(s, u, day).state)
  {
    var before := SessionOf(s, u);
    var k := CountOn(s.counters, day) + 1;
    var rid := ReceiptId(day, k);
    var counters := s.counters[day := k];
    var after := before.(receiptId := Some(rid), images := before.images + [ImagePath(rid, |before.images| + 1)],
                         consent := true);
    assert ImageStep(s, u, day).state == State(s.sessions[u := after], counters);
    assert WellFormed(after) by {
      RecordImageWellFormed(before, rid);
    }
    assert rid in Issued(counters) by {
      IssuedHas(counters, day, k);
    }
    assert forall v :: v in s.sessions && v != u ==> s.sessions[v].receiptId != after.receiptId by {
      AllocationFresh(s.counters, day);
      UnissuedIsUnused(s, rid);
    }
    UpdateKeepsConsistent(s, u, after, counters);
  }

  /** An image that reuses the stored receipt id keeps the invariant. */
  lemma LaterImageKeepsConsistent(s: State, u: UserId, day: DayKey)
    requires Consistent(s) && WellFormed(SessionOf(s, u)) && SessionOf(s, u).receiptId.Some?
    ensures Consistent(ImageStep(s, u, day).state)
  {
    var before := SessionOf(s, u);
    var rid := before.receiptId.value;
    assert u in s.sessions;
    RecordImageWellFormed(before, rid);
    var after := before.(receiptId := Some(rid), images := before.images + [ImagePath(rid, |before.images| + 1)],
                         consent := true);
    UpdateKeepsConsistent(s, u, after, s.counters);
    assert ImageStep(s, u, day).state == State(s.sessions[u := after], s.counters);
  }

  lemma ImageKeepsConsistent(s: State, u: UserId, day: DayKey)
    requires Consistent(s)
    ensures Consistent(ImageStep(s, u, day).state)
  {
    if u in s.sessions {
      assert WellFormed(s.sessions[u]);
    }
    if SessionOf(s, u).receiptId.None? {
      FirstImageKeepsConsistent(s, u, day);
    } else {
      LaterImageKeepsConsistent(s, u, day);
    }
  }

  lemma TextKeepsConsistent(s: State, u: UserId, raw: string)
    requires Consistent(s)
    ensures Consistent(TextStep(s, u, raw).state)
  {
    var text := Strip(raw);
    var cur := SessionOf(s, u);
    if u in s.sessions {
      assert WellFormed(s.sessions[u]);
    }
    if !cur.consent {
      SameIdKeepsConsistent(s, u, cur.(consent := true));
      SameIdKeepsConsistent(s, u, cur);
      assert s.sessions[u := cur][u := cur.(consent := true)] == s.sessions[u := cur.(consent := true)];
    } else if cur.phone.None? {
      SameIdKeepsConsistent(s, u, cur.(phone := Some(text)));
      assert s.sessions[u := cur][u := cur.(phone := Some(text))] == s.sessions[u := cur.(phone := Some(text))];
    } else if cur.pickupTime.None? {
      if cur.receiptId.None? {
        SameIdKeepsConsistent(s, u, cur.(pickupTime := Some(text)));
        assert s.sessions[u := cur][u := cur.(pickupTime := Some(text))] == s.sessions[u := cur.(pickupTime := Some(text))];
      }
    } else {
      SameIdKeepsConsistent(s, u, cur);
    }
  }

  /** Every event keeps the store invariant. */
  lemma HandleKeepsConsistent(s: State, e: Event)
    requires Consistent(s)
    ensures Consistent(Handle(s, e).state)
  {
    match e
    case Follow(u) => FollowKeepsConsistent(s, u);
    case Image(u, day) => ImageKeepsConsistent(s, u, day);
    case Text(u, t) => TextKeepsConsistent(s, u, t);
  }

  /** The invariant holds after any sequence of events from a consistent start. */
  lemma {:induction false} RunKeepsConsistent(s: State, events: seq<Event>)
    requires Consistent(s)
    ensures Consistent(Run(s, events))
    decreases |events|
  {
    if events != [] {
      HandleKeepsConsistent(s, events[0]);
      RunKeepsConsistent(Handle(s, events[0]).state, events[1..]);
    }
  }
}
