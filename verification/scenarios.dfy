/**
 * Properties of whole conversations: many images share one receipt id, a
 * complete intake uploads every image and ends with the entry deleted, a
 * conversation without images stalls on a KeyError, and receipt ids stay
 * unique across users.
 */
module Scenarios {
  import opened ReceiptIds
  import opened TextInput
  import opened Sessions
  import opened Machine
  import opened Steps

  function ImageEvents(u: UserId, days: seq<DayKey>): seq<Event> {
    seq(|days|, i requires 0 <= i < |days| => Image(u, days[i]))
  }

  lemma {:induction false} RunAppend(s: State, a: seq<Event>, b: seq<Event>)
    ensures Run(s, a + b) == Run(Run(s, a), b)
    decreases |a|
  {
    if a == [] {
      assert a + b == b;
    } else {
      assert (a + b)[0] == a[0];
      assert (a + b)[1..] == a[1..] + b;
      RunAppend(Handle(s, a[0]).state, a[1..], b);
    }
  }

  /** Running a non-empty series of image events is one image step, then the rest. */
  lemma RunImagesCons(s: State, u: UserId, days: seq<DayKey>)
    requires |days| >= 1
    ensures Run(s, ImageEvents(u, days)) == Run(ImageStep(s, u, days[0]).state, ImageEvents(u, days[1..]))
  {
    var evs := ImageEvents(u, days);
    assert evs[0] == Image(u, days[0]);
    assert evs[1..] == ImageEvents(u, days[1..]);
  }

  /** The state after the user sends one image on each of `days`, in order. */
  function SendImages(s: State, u: UserId, days: seq<DayKey>): State
    decreases |days|
  {
    if days == [] then s else SendImages(ImageStep(s, u, days[0]).state, u, days[1..])
  }

  /** Running the image events is sending the images. */
  lemma {:induction false} RunImages(s: State, u: UserId, days: seq<DayKey>)
    ensures Run(s, ImageEvents(u, days)) == SendImages(s, u, days)
    decreases |days|
  {
    if days == [] {
      assert ImageEvents(u, days) == [];
    } else {
      RunImagesCons(s, u, days);
      RunImages(ImageStep(s, u, days[0]).state, u, days[1..]);
    }
  }

  /** The paths of images number `from`, `from + 1`, ... of one receipt. */
  function NumberedPaths(rid: string, from: nat, n: nat): seq<string> {
    seq(n, (k: nat) => ImagePath(rid, from + k))
  }

  lemma NumberedPathsCons(rid: string, from: nat, n: nat)
    requires n >= 1
    ensures NumberedPaths(rid, from, n) == [ImagePath(rid, from)] + NumberedPaths(rid, from + 1, n - 1)
  {
  }

  /**
   * Images sent while the entry already holds a receipt id reuse it: the
   * counters do not move, each image is appended under the next number, and
   * no other entry changes.
   */
  lemma {:induction false} ImagesReuseReceipt(s: State, u: UserId, days: seq<DayKey>)
    requires u in s.sessions && s.sessions[u].receiptId.Some? && s.sessions[u].receiptId.value != ""
    ensures var before := s.sessions[u];
            var rid := before.receiptId.value;
            var after := before.(images := before.images + NumberedPaths(rid, |before.images| + 1, |days|),
                                 consent := before.consent || |days| > 0);
            SendImages(s, u, days) == State(s.sessions[u := after], s.counters)
    decreases |days|
  {
    var before := s.sessions[u];
    var rid := before.receiptId.value;
    if days == [] {
      assert NumberedPaths(rid, |before.images| + 1, 0) == [];
      assert before.images + [] == before.images;
      assert before.(images := before.images, consent := before.consent) == before;
      UpdateSame(s.sessions, u);
    } else {
      var m := |before.images|;
      var n := |days|;
      var s1 := ImageStep(s, u, days[0]).state;
      var b1 := before.(images := before.images + [ImagePath(rid, m + 1)], consent := true);
      assert s1 == State(s.sessions[u := b1], s.counters);
      ImagesReuseReceipt(s1, u, days[1..]);
      NumberedPathsCons(rid, m + 1, n);
      assert b1.images + NumberedPaths(rid, m + 2, n - 1) == before.images + NumberedPaths(rid, m + 1, n);
      UpdateTwice(s.sessions, u, b1, b1.(images := b1.images + NumberedPaths(rid, m + 2, n - 1)));
    }
  }

  /**
   * Any number (at least one) of images starting from an entry without a
   * receipt id yields exactly one receipt id — the first image's day and that
   * day's next count — and exactly one counter step, whatever days the later
   * images arrive on. The images are numbered 1..N; no other entry changes.
   */
  lemma ImagesShareOneReceipt(s: State, u: UserId, days: seq<DayKey>)
    requires |days| >= 1 && SessionOf(s, u).receiptId.None? && SessionOf(s, u).images == []
    ensures var k := CountOn(s.counters, days[0]) + 1;
            var rid := ReceiptId(days[0], k);
            var after := SessionOf(s, u).(receiptId := Some(rid), images := NumberedPaths(rid, 1, |days|), consent := true);
            SendImages(s, u, days) == State(s.sessions[u := after], s.counters[days[0] := k])
  {
    var before := SessionOf(s, u);
    var k := CountOn(s.counters, days[0]) + 1;
    var rid := ReceiptId(days[0], k);
    var s1 := ImageStep(s, u, days[0]).state;
    var b1 := before.(receiptId := Some(rid), images := [ImagePath(rid, 1)], consent := true);
    assert s1 == State(s.sessions[u := b1], s.counters[days[0] := k]) by {
      FirstImage(s, u, days[0]);
    }
    var paths := NumberedPaths(rid, 1, |days|);
    var after := before.(receiptId := Some(rid), images := paths, consent := true);
    assert SendImages(s, u, days) == SendImages(s1, u, days[1..]);
    assert SendImages(s1, u, days[1..]) == State(s.sessions[u := b1][u := after], s.counters[days[0] := k]) by {
      ImagesReuseReceipt(s1, u, days[1..]);
      NumberedPathsCons(rid, 1, |days|);
      assert b1.(images := b1.images + NumberedPaths(rid, 2, |days| - 1), consent := true) == after;
    }
    UpdateTwice(s.sessions, u, b1, after);
  }

  /** The first image of an entry without a receipt id opens receipt 1 of the day's next count. */
  lemma FirstImage(s: State, u: UserId, day: DayKey)
    requires SessionOf(s, u).receiptId.None? && SessionOf(s, u).images == []
    ensures var k := CountOn(s.counters, day) + 1;
            var rid := ReceiptId(day, k);
            && rid != ""
            && ImageStep(s, u, day).state
               == State(s.sessions[u := SessionOf(s, u).(receiptId := Some(rid), images := [ImagePath(rid, 1)], consent := true)],
                        s.counters[day := k])
  {
    var rid := ReceiptId(day, CountOn(s.counters, day) + 1);
    assert SessionOf(s, u).images + [ImagePath(rid, 1)] == [ImagePath(rid, 1)];
  }

  /** The pickup text on an entry holding a receipt id, in one equation. */
  lemma PickupFinalises(t: State, u: UserId, raw: string)
    requires var e := SessionOf(t, u); e.consent && e.phone.Some? && e.pickupTime.None? && e.receiptId.Some?
    ensures var e := SessionOf(t, u);
            var rid := e.receiptId.value;
            var phone := e.phone.value;
            TextStep(t, u, raw)
            == Outcome(State(t.sessions - {u}, t.counters),
                       Uploads(rid, phone, Strip(raw), e.images) + [ConfirmationReply(rid, |e.images|, phone, Strip(raw))],
                       None)
  {
  }

  /**
   * A complete intake: from an entry with no receipt id, no images and no
   * phone, N >= 1 images, then a phone text, then a pickup text. The last
   * text uploads the N images in order as `{id}_1.jpg` ... `{id}_N.jpg`
   * carrying the receipt id, the stripped phone and the stripped pickup
   * time, replies with the summary, and deletes the entry; every other entry
   * is as before, and the only counter change is the one allocation.
   */
  lemma CompleteIntake(s: State, u: UserId, days: seq<DayKey>, phone: string, pickup: string)
    requires |days| >= 1
    requires var e := SessionOf(s, u); e.receiptId.None? && e.images == [] && e.phone.None? && e.pickupTime.None?
    ensures var k := CountOn(s.counters, days[0]) + 1;
            var rid := ReceiptId(days[0], k);
            var n := |days|;
            var t := Run(s, ImageEvents(u, days) + [Text(u, phone)]);
            var o := TextStep(t, u, pickup);
            var props := Properties(rid, Strip(phone), Strip(pickup));
            && o.raised.None?
            && o.state == State(s.sessions - {u}, s.counters[days[0] := k])
            && |o.effects| == n + 1
            && (forall i :: 0 <= i < n ==>
                  o.effects[i] == Upload(UploadName(rid, i + 1), ImagePath(rid, i + 1), [DriveFolder], props))
            && o.effects[n] == ConfirmationReply(rid, n, Strip(phone), Strip(pickup))
  {
    var k := CountOn(s.counters, days[0]) + 1;
    var rid := ReceiptId(days[0], k);
    var evs := ImageEvents(u, days);
    var n := |days|;
    var paths := NumberedPaths(rid, 1, n);
    var c1 := s.counters[days[0] := k];
    var b1 := SessionOf(s, u).(receiptId := Some(rid), images := paths, consent := true);
    var b2 := b1.(phone := Some(Strip(phone)));
    var t1 := Run(s, evs);
    assert t1 == State(s.sessions[u := b1], c1) by {
      RunImages(s, u, days);
      ImagesShareOneReceipt(s, u, days);
    }
    var t := TextStep(t1, u, phone).state;
    assert t == State(s.sessions[u := b1][u := b2], c1) by {
      PhoneStep(t1, u, phone);
    }
    assert Run(s, evs + [Text(u, phone)]) == t by {
      RunAppend(s, evs, [Text(u, phone)]);
      assert [Text(u, phone)][1..] == [];
    }
    var uploads := Uploads(rid, Strip(phone), Strip(pickup), paths);
    assert TextStep(t, u, pickup)
           == Outcome(State(s.sessions[u := b1][u := b2] - {u}, c1),
                      uploads + [ConfirmationReply(rid, n, Strip(phone), Strip(pickup))], None) by {
      PickupFinalises(t, u, pickup);
    }
    UpdateThenRemove(s.sessions[u := b1], u, b2);
    UpdateThenRemove(s.sessions, u, b1);
    UploadsOfPaths(rid, Strip(phone), Strip(pickup), n);
  }

  /** The uploads of images 1..n are named and sourced by their number. */
  lemma UploadsOfPaths(rid: string, phone: string, pickup: string, n: nat)
    ensures var uploads := Uploads(rid, phone, pickup, NumberedPaths(rid, 1, n));
            && |uploads| == n
            && forall i :: 0 <= i < n ==>
                 uploads[i] == Upload(UploadName(rid, i + 1), ImagePath(rid, i + 1), [DriveFolder],
                                      Properties(rid, phone, pickup))
  {
  }

  /**
   * The conversation of a new user who gives consent by text, sends N >= 1
   * images, a phone number and a pickup time ends with the entry deleted and
   * the summary sent; the receipt id is the first image's day and next count.
   */
  lemma ConsentThenIntake(s: State, u: UserId, consent: string, days: seq<DayKey>, phone: string, pickup: string)
    requires u !in s.sessions && IsConsent(Strip(consent))
    requires |days| >= 1
    ensures var t := Run(s, [Text(u, consent)] + ImageEvents(u, days) + [Text(u, phone)]);
            var o := TextStep(t, u, pickup);
            var rid := ReceiptId(days[0], CountOn(s.counters, days[0]) + 1);
            && o.raised.None?
            && u !in o.state.sessions
            && |o.effects| == |days| + 1
            && o.effects[|days|] == ConfirmationReply(rid, |days|, Strip(phone), Strip(pickup))
  {
    var rest := ImageEvents(u, days) + [Text(u, phone)];
    var s1 := TextStep(s, u, consent).state;
    var rid := ReceiptId(days[0], CountOn(s.counters, days[0]) + 1);
    assert s1 == State(s.sessions[u := Empty.(consent := true)], s.counters) by {
      ConsentStep(s, u, consent);
    }
    assert Run(s, [Text(u, consent)] + ImageEvents(u, days) + [Text(u, phone)]) == Run(s1, rest) by {
      assert Run(s, [Text(u, consent)]) == s1 by {
        assert [Text(u, consent)][1..] == [];
      }
      RunAppend(s, [Text(u, consent)], rest);
      assert [Text(u, consent)] + ImageEvents(u, days) + [Text(u, phone)] == [Text(u, consent)] + rest;
    }
    var o := TextStep(Run(s1, rest), u, pickup);
    assert && o.raised.None?
           && u !in o.state.sessions
           && |o.effects| == |days| + 1
           && o.effects[|days|] == ConfirmationReply(rid, |days|, Strip(phone), Strip(pickup))
    by {
      CompleteIntake(s1, u, days, phone, pickup);
    }
  }

  /**
   * Consent and phone by text with no image: the pickup text stores the
   * pickup time and then raises KeyError on the missing receipt id. Nothing is
   * uploaded or sent, the entry stays with every stage key present, and from
   * then on every text is ignored.
   */
  lemma NoImageStalls(s: State, u: UserId, consent: string, phone: string, pickup: string)
    requires u !in s.sessions && IsConsent(Strip(consent))
    ensures var t := Run(s, [Text(u, consent), Text(u, phone)]);
            var o := TextStep(t, u, pickup);
            && o.raised == Some(KeyError("receipt_id"))
            && o.effects == []
            && o.state.counters == s.counters
            && u in o.state.sessions
            && o.state.sessions[u] == Session(true, None, [], Some(Strip(phone)), Some(Strip(pickup)))
            && StageOf(o.state.sessions[u]) == Stalled
            && forall later :: TextStep(o.state, u, later) == Outcome(o.state, [], None)
  {
    var evs := [Text(u, consent), Text(u, phone)];
    var s1 := TextStep(s, u, consent).state;
    var s2 := TextStep(s1, u, phone).state;
    assert Run(s, evs) == Run(s1, evs[1..]);
    assert Run(s1, evs[1..]) == Run(s2, []);
    var o := TextStep(s2, u, pickup);
    forall later ensures TextStep(o.state, u, later) == Outcome(o.state, [], None) {
      StalledIgnoresText(o.state, u, later);
    }
  }

  /**
   * Two consecutive allocations on one day give counts k and k + 1: distinct
   * receipt ids, in string order while below 10000.
   */
  lemma ConsecutiveAllocations(c: map<DayKey, nat>, day: DayKey)
    ensures var k1 := CountOn(c, day) + 1;
            var k2 := CountOn(c[day := k1], day) + 1;
            && k2 == k1 + 1
            && ReceiptId(day, k1) != ReceiptId(day, k2)
            && (k2 < 10000 ==> LexLess(ReceiptId(day, k1), ReceiptId(day, k2)))
  {
    var k1 := CountOn(c, day) + 1;
    ReceiptIdInjective(day, k1, day, k1 + 1);
    if k1 + 1 < 10000 {
      ReceiptIdOrder(day, k1, k1 + 1);
    }
  }

  /** After any sequence of events from an empty start, no two users share a receipt id. */
  lemma ReceiptIdsNeverShared(events: seq<Event>, u: UserId, v: UserId)
    ensures var t := Run(State(map[], map[]), events);
            u in t.sessions && v in t.sessions && u != v && t.sessions[u].receiptId.Some? ==>
              t.sessions[u].receiptId != t.sessions[v].receiptId
  {
    RunKeepsConsistent(State(map[], map[]), events);
  }
}
