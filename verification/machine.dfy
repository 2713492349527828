/**
 * The three event handlers as functions from the bot's state (session store
 * and per-day counters) to the next state, the collaborator effects issued
 * (replies, image files written, Drive uploads) and the exception raised, if
 * any. The class in module Bot updates its maps in place and is proved to
 * follow these functions.
 */
module Machine {
  import opened ReceiptIds
  import opened TextInput
  import opened Sessions

  type UserId = string

  datatype State = State(sessions: map<UserId, Session>, counters: map<DayKey, nat>)

  /** The webhook events the bot handles; an image event carries the day the clock reads. */
  datatype Event =
    | Follow(user: UserId)
    | Image(user: UserId, day: DayKey)
    | Text(user: UserId, text: string)

  /**
   * A message of a reply. A text message is recorded by what it says: one of
   * the fixed notices, or the completion summary of the given fields;
   * `MessageText` gives the exact text sent.
   */
  datatype Message =
    | Fixed(notice: Notice)
    | Summary(receiptId: string, imageCount: nat, phone: string, pickupTime: string)
    | ImageMessage(originalUrl: string, previewUrl: string)

  /** The text of a text message; an image message has none. */
  function MessageText(m: Message): Option<string> {
    match m
    case Fixed(n) => Some(Wording(n))
    case Summary(rid, count, phone, pickup) => Some(Confirmation(rid, count, phone, pickup))
    case ImageMessage(_, _) => None
  }

  /** The `properties` attached to an uploaded file. */
  datatype Properties = Properties(receptionId: string, phone: string, pickupTime: string)

  datatype Effect =
    | Reply(messages: seq<Message>)
    | SaveImage(path: string)
    | Upload(name: string, source: string, parents: seq<string>, properties: Properties)

  datatype Error = KeyError(key: string)

  datatype Outcome = Outcome(state: State, effects: seq<Effect>, raised: Option<Error>)

  /** The shared-drive folder every image is uploaded into. */
  const DriveFolder: string := "1XqsqIobVzwYjByX6g_QcNSb4NNI9YfcV"

  /** `user_data.get(user_id, {})` */
  function SessionOf(s: State, u: UserId): Session {
    if u in s.sessions then s.sessions[u] else Empty
  }

  lemma UpdateTwice<K, V>(m: map<K, V>, k: K, a: V, b: V)
    ensures m[k := a][k := b] == m[k := b]
  {
  }

  lemma UpdateSame<K, V>(m: map<K, V>, k: K)
    requires k in m
    ensures m[k := m[k]] == m
  {
  }

  lemma UpdateThenRemove<K, V>(m: map<K, V>, k: K, v: V)
    ensures m[k := v] - {k} == m - {k}
  {
  }

  function UserOf(e: Event): UserId {
    match e
    case Follow(u) => u
    case Image(u, _) => u
    case Text(u, _) => u
  }

  /**
   * The invariant of the whole store: counters start at 1, every entry is
   * well formed, every stored receipt id has been issued by the counters,
   * and no two users hold the same receipt id.
   */
  ghost predicate Consistent(s: State) {
    && (forall d :: d in s.counters ==> s.counters[d] >= 1)
    && (forall u :: u in s.sessions ==> WellFormed(s.sessions[u]))
    && (forall u :: u in s.sessions && s.sessions[u].receiptId.Some? ==>
          s.sessions[u].receiptId.value in Issued(s.counters))
    && (forall u, v :: u in s.sessions && v in s.sessions && u != v && s.sessions[u].receiptId.Some? ==>
          s.sessions[u].receiptId != s.sessions[v].receiptId)
  }

  /** `handle_follow`: reset the user's entry to `{}` and greet. */
  function FollowStep(s: State, u: UserId): Outcome {
    Outcome(s.(sessions := s.sessions[u := Empty]), [Reply([Fixed(Welcome)])], None)
  }

  /**
   * `handle_image`: reuse the stored receipt id, or allocate one (`x or
   * generate_receipt_id()`, so a stored empty id would count as missing);
   * write the image as the next numbered file, record it, mark consent.
   */
  function ImageStep(s: State, u: UserId, day: DayKey): Outcome {
    var cur := SessionOf(s, u);
    var reuse := cur.receiptId.Some? && cur.receiptId.value != "";
    var next := CountOn(s.counters, day) + 1;
    var counters := if reuse then s.counters else s.counters[day := next];
    var rid := if reuse then cur.receiptId.value else ReceiptId(day, next);
    var path := ImagePath(rid, |cur.images| + 1);
    var updated := cur.(receiptId := Some(rid), images := cur.images + [path], consent := true);
    Outcome(State(s.sessions[u := updated], counters),
            [SaveImage(path), Reply([Fixed(ImageReceived)])],
            None)
  }

  /** One upload per image, in order, named `{receipt_id}_{i}.jpg` for i = 1, 2, ... */
  function Uploads(receiptId: string, phone: string, pickupTime: string, images: seq<string>): seq<Effect> {
    seq(|images|, i requires 0 <= i < |images| =>
      Upload(UploadName(receiptId, i + 1), images[i], [DriveFolder], Properties(receiptId, phone, pickupTime)))
  }

  function ConfirmationReply(receiptId: string, imageCount: nat, phone: string, pickupTime: string): Effect {
    Reply([Summary(receiptId, imageCount, phone, pickupTime)])
  }

  /**
   * `handle_text`: strip the text, create the entry if missing, then act on
   * the first missing key: consent, phone, pickup time. Storing the pickup
   * time finalises: upload every image, reply with the summary, delete the
   * entry; with no receipt id the lookup raises KeyError after the pickup
   * time was stored, and nothing else happens. With every key present the
   * text is ignored.
   */
  function TextStep(s: State, u: UserId, raw: string): Outcome {
    var text := Strip(raw);
    var cur := SessionOf(s, u);
    var store := s.sessions[u := cur];
    if !cur.consent then
      if IsConsent(text) then
        Outcome(s.(sessions := store[u := cur.(consent := true)]),
                [Reply([Fixed(ConsentThanks), ImageMessage(GuideImageUrl, GuideImageUrl)])],
                None)
      else
        Outcome(s.(sessions := store), [Reply([Fixed(ConsentRequired)])], None)
    else if cur.phone.None? then
      Outcome(s.(sessions := store[u := cur.(phone := Some(text))]),
              [Reply([Fixed(PhoneConfirmed)])],
              None)
    else if cur.pickupTime.None? then
      if cur.receiptId.None? then
        Outcome(s.(sessions := store[u := cur.(pickupTime := Some(text))]), [], Some(KeyError("receipt_id")))
      else
        var rid := cur.receiptId.value;
        var phone := cur.phone.value;
        Outcome(s.(sessions := s.sessions - {u}),
                Uploads(rid, phone, text, cur.images) + [ConfirmationReply(rid, |cur.images|, phone, text)],
                None)
    else
      Outcome(s.(sessions := store), [], None)
  }

  function Handle(s: State, e: Event): Outcome {
    match e
    case Follow(u) => FollowStep(s, u)
    case Image(u, day) => ImageStep(s, u, day)
    case Text(u, t) => TextStep(s, u, t)
  }

  /** The state after handling `events` one after another from `s`. */
  function Run(s: State, events: seq<Event>): State
    decreases |events|
  {
    if events == [] then s else Run(Handle(s, events[0]).state, events[1..])
  }
}
