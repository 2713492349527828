/**
 * One user's entry of the session store (`user_data[user_id]`): a record
 * whose keys are filled in the order consent, receipt id and images, phone,
 * pickup time. The conversation stage is read off which keys are present.
 */
module Sessions {
  import opened ReceiptIds

  datatype Option<T> = None | Some(value: T)

  /**
   * `consent` is whether the "consent" key is present (its value is always
   * True). A missing "images" key is the empty list: every reader uses
   * `.get("images", [])` or `setdefault`, so the two cannot be told apart.
   */
  datatype Session = Session(
    consent: bool,
    receiptId: Option<string>,
    images: seq<string>,
    phone: Option<string>,
    pickupTime: Option<string>)

  /** The entry `{}` created by a follow event or by a first message. */
  const Empty: Session := Session(false, None, [], None, None)

  /** Where the k-th image of a receipt is written: `/tmp/{receipt_id}_{k}.jpg`. */
  function ImagePath(receiptId: string, k: nat): string {
    "/tmp/" + receiptId + "_" + Decimal(k) + ".jpg"
  }

  /** Name of the k-th uploaded file of a receipt: `{receipt_id}_{k}.jpg`. */
  function UploadName(receiptId: string, k: nat): string {
    receiptId + "_" + Decimal(k) + ".jpg"
  }

  /** Distinct image numbers of one receipt give distinct upload names. */
  lemma UploadNamesDistinct(receiptId: string, j: nat, k: nat)
    ensures UploadName(receiptId, j) == UploadName(receiptId, k) <==> j == k
  {
    if UploadName(receiptId, j) == UploadName(receiptId, k) {
      var p := |receiptId| + 1;
      var dj, dk := Decimal(j), Decimal(k);
      assert UploadName(receiptId, j)[p..] == dj + ".jpg";
      assert UploadName(receiptId, k)[p..] == dk + ".jpg";
      assert dj == (dj + ".jpg")[..|dj|];
      assert dk == (dk + ".jpg")[..|dk|];
      ValueOfDecimal(j);
      ValueOfDecimal(k);
    }
  }

  /** The stage the text handler infers from the keys present. */
  datatype Stage =
    | AwaitingConsent      // no "consent" key
    | AwaitingPhone        // consent given; images may still arrive
    | AwaitingPickupTime   // phone stored
    | Stalled              // pickup time stored but the session was never finalised

  function StageOf(s: Session): Stage {
    if !s.consent then AwaitingConsent
    else if s.phone.None? then AwaitingPhone
    else if s.pickupTime.None? then AwaitingPickupTime
    else Stalled
  }

  /**
   * What every entry satisfies: a receipt id exactly when there are images,
   * the images numbered 1, 2, ... under that id, and no key before its
   * predecessor (consent, then phone, then pickup time).
   */
  predicate WellFormed(s: Session) {
    && (s.receiptId.Some? <==> s.images != [])
    && (s.receiptId.Some? ==> s.consent && s.receiptId.value != "")
    && (s.receiptId.Some? ==>
          forall k :: 0 <= k < |s.images| ==> s.images[k] == ImagePath(s.receiptId.value, k + 1))
    && (s.phone.Some? ==> s.consent)
    && (s.pickupTime.Some? ==> s.phone.Some?)
  }
}
