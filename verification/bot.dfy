/**
 * The bot's process-wide state as an object: the session store
 * (`user_data`) and the per-day counters (`daily_counter`), updated in place
 * by the receipt-number generator and the three event handlers. Each handler
 * is proved to do exactly what the matching function of module Machine says,
 * and to keep the store invariant `Consistent`.
 */
module Bot {
  import opened ReceiptIds
  import opened TextInput
  import opened Sessions
  import opened Machine
  import opened Steps

  /**
   * The finalisation loop: for each image, in order, the upload of
   * `{receipt_id}_{idx + 1}.jpg` into the shared folder with the receipt id,
   * phone and pickup time as properties.
   */
  method UploadAll(receiptId: string, phone: string, pickupTime: string, images: seq<string>)
    returns (uploads: seq<Effect>)
    ensures |uploads| == |images|
    ensures forall i :: 0 <= i < |images| ==>
              uploads[i] == Upload(UploadName(receiptId, i + 1), images[i], [DriveFolder],
                                   Properties(receiptId, phone, pickupTime))
    ensures uploads == Uploads(receiptId, phone, pickupTime, images)
  {
    uploads := [];
    for idx := 0 to |images|
      invariant |uploads| == idx
      invariant forall i :: 0 <= i < idx ==>
                  uploads[i] == Upload(UploadName(receiptId, i + 1), images[i], [DriveFolder],
                                       Properties(receiptId, phone, pickupTime))
    {
      var metadata := Properties(receiptId, phone, pickupTime);
      uploads := uploads + [Upload(UploadName(receiptId, idx + 1), images[idx], [DriveFolder], metadata)];
    }
  }

  class IntakeBot {
    var sessions: map<UserId, Session>
    var counters: map<DayKey, nat>

    ghost function Snapshot(): State
      reads this
    {
      State(sessions, counters)
    }

    /**
     * The store invariant. Every method below keeps it: when it held before
     * the call it holds after, without the method depending on it.
     */
    ghost predicate Valid()
      reads this
    {
      Consistent(Snapshot())
    }

    /** Process start: no sessions, no counters. */
    constructor ()
      ensures Valid()
      ensures sessions == map[] && counters == map[]
    {
      sessions := map[];
      counters := map[];
    }

    /**
     * `generate_receipt_id`: raise today's count by one (starting from 1),
     * leave other days alone, and return the day followed by the new count
     * padded to four digits — a number never handed out before.
     */
    method GenerateReceiptId(day: DayKey) returns (id: string)
      modifies this
      ensures old(Valid()) ==> Valid()
      ensures sessions == old(sessions)
      ensures counters == old(counters)[day := CountOn(old(counters), day) + 1]
      ensures id == ReceiptId(day, counters[day])
      ensures id !in Issued(old(counters))
      ensures Issued(counters) == Issued(old(counters)) + {id}
    {
      var count := (if day in counters then counters[day] else 0) + 1;
      counters := counters[day := count];
      id := day + ZeroPad(count, 4);
      AllocationFresh(old(counters), day);
      assert old(Valid()) ==> Valid() by { IssuedGrows(old(counters), counters); }
    }

    /** `handle_follow` */
    method Follow(u: UserId) returns (effects: seq<Effect>)
      modifies this
      ensures old(Valid()) ==> Valid()
      ensures Snapshot() == FollowStep(old(Snapshot()), u).state
      ensures effects == FollowStep(old(Snapshot()), u).effects
    {
      sessions := sessions[u := Empty];
      effects := [Reply([Fixed(Welcome)])];
      assert old(Valid()) ==> Valid() by { if old(Valid()) { FollowKeepsConsistent(old(Snapshot()), u); } }
    }

    /** `handle_image` */
    method Image(u: UserId, day: DayKey) returns (effects: seq<Effect>)
      modifies this
      ensures old(Valid()) ==> Valid()
      ensures Snapshot() == ImageStep(old(Snapshot()), u, day).state
      ensures effects == ImageStep(old(Snapshot()), u, day).effects
    {
      ghost var step := ImageStep(Snapshot(), u, day);
      var stored := if u in sessions then sessions[u] else Empty;
      var receiptId: string;
      if stored.receiptId.Some? && stored.receiptId.value != "" {
        receiptId := stored.receiptId.value;
      } else {
        receiptId := GenerateReceiptId(day);
      }
      var imagePath := ImagePath(receiptId, |stored.images| + 1);
      var entry := stored;
      entry := entry.(receiptId := Some(receiptId));
      entry := entry.(images := entry.images + [imagePath]);
      entry := entry.(consent := true);
      sessions := sessions[u := entry];
      assert Snapshot() == step.state;
      assert old(Valid()) ==> Valid() by { if old(Valid()) { ImageKeepsConsistent(old(Snapshot()), u, day); } }
      effects := [SaveImage(imagePath), Reply([Fixed(ImageReceived)])];
    }

    /**
     * `handle_text`. `raised` is the exception the handler ends with: a
     * KeyError when the pickup step finds no receipt id.
     */
    method Text(u: UserId, raw: string) returns (effects: seq<Effect>, raised: Option<Error>)
      modifies this
      ensures old(Valid()) ==> Valid()
      ensures Snapshot() == TextStep(old(Snapshot()), u, raw).state
      ensures effects == TextStep(old(Snapshot()), u, raw).effects
      ensures raised == TextStep(old(Snapshot()), u, raw).raised
    {
      ghost var step := TextStep(Snapshot(), u, raw);
      var text := Strip(raw);
      raised := None;
      effects := [];
      if u !in sessions {
        sessions := sessions[u := Empty];
      }
      var entry := sessions[u];

      if !entry.consent {
        if IsConsent(text) {
          sessions := sessions[u := entry.(consent := true)];
          effects := [Reply([Fixed(ConsentThanks), ImageMessage(GuideImageUrl, GuideImageUrl)])];
        } else {
          effects := [Reply([Fixed(ConsentRequired)])];
        }
        assert Snapshot() == step.state;
        assert old(Valid()) ==> Valid() by { if old(Valid()) { TextKeepsConsistent(old(Snapshot()), u, raw); } }
        return;
      }

      if entry.phone.None? {
        sessions := sessions[u := entry.(phone := Some(text))];
        effects := [Reply([Fixed(PhoneConfirmed)])];
        assert Snapshot() == step.state;
        assert old(Valid()) ==> Valid() by { if old(Valid()) { TextKeepsConsistent(old(Snapshot()), u, raw); } }
        return;
      }

      if entry.pickupTime.None? {
        entry := entry.(pickupTime := Some(text));
        sessions := sessions[u := entry];
        if entry.receiptId.None? {
          raised := Some(KeyError("receipt_id"));
          assert Snapshot() == step.state;
          assert old(Valid()) ==> Valid() by { if old(Valid()) { TextKeepsConsistent(old(Snapshot()), u, raw); } }
          return;
        }
        effects := Finalise(u, entry);
        assert sessions == old(sessions) - {u};
      }
      assert Snapshot() == step.state;
      assert old(Valid()) ==> Valid() by { if old(Valid()) { TextKeepsConsistent(old(Snapshot()), u, raw); } }
    }

    /**
     * The end of the pickup step, once the stored entry has a receipt id:
     * upload every image, reply with the summary, delete the entry.
     */
    method Finalise(u: UserId, entry: Session) returns (effects: seq<Effect>)
      requires entry.receiptId.Some? && entry.phone.Some? && entry.pickupTime.Some?
      modifies this
      ensures old(Valid()) ==> Valid()
      ensures sessions == old(sessions) - {u} && counters == old(counters)
      ensures effects == Uploads(entry.receiptId.value, entry.phone.value, entry.pickupTime.value, entry.images)
                         + [ConfirmationReply(entry.receiptId.value, |entry.images|, entry.phone.value, entry.pickupTime.value)]
    {
      var receiptId := entry.receiptId.value;
      var phone := entry.phone.value;
      var pickupTime := entry.pickupTime.value;
      var images := entry.images;
      var uploads := UploadAll(receiptId, phone, pickupTime, images);
      effects := uploads + [ConfirmationReply(receiptId, |images|, phone, pickupTime)];
      sessions := sessions - {u};
      assert old(Valid()) ==> Valid();
    }

    /**
     * Dispatch one webhook event to its handler. Every event keeps the store
     * invariant.
     */
    method Dispatch(e: Event) returns (effects: seq<Effect>, raised: Option<Error>)
      requires Valid()
      modifies this
      ensures Valid()
      ensures Snapshot() == Handle(old(Snapshot()), e).state
      ensures effects == Handle(old(Snapshot()), e).effects
      ensures raised == Handle(old(Snapshot()), e).raised
    {
      match e
      case Follow(u) =>
        effects := Follow(u);
        raised := None;
      case Image(u, day) =>
        effects := Image(u, day);
        raised := None;
      case Text(u, t) =>
        effects, raised := Text(u, t);
    }
  }
}
