/**
 * How the bot reads a text message (Python's `str.strip()` and `str.lower()`
 * followed by membership in the consent words) and the texts it replies with.
 */
module TextInput {
  import opened ReceiptIds

  /** The characters for which Python's `str.isspace()` holds; `strip()` removes these. */
  predicate IsSpace(c: char) {
    || ('\t' <= c <= '\r')
    || ('\U{1C}' <= c <= '\U{1F}')
    || c == ' ' || c == '\U{85}' || c == '\U{A0}' || c == '\U{1680}'
    || ('\U{2000}' <= c <= '\U{200A}')
    || c == '\U{2028}' || c == '\U{2029}' || c == '\U{202F}' || c == '\U{205F}' || c == '\U{3000}'
  }

  /** Number of whitespace characters at the start of `s`. */
  function LeadingSpace(s: string): (n: nat)
    ensures n <= |s|
    ensures forall k :: 0 <= k < n ==> IsSpace(s[k])
    ensures n < |s| ==> !IsSpace(s[n])
  {
    if s != [] && IsSpace(s[0]) then 1 + LeadingSpace(s[1..]) else 0
  }

  /** Number of whitespace characters at the end of `s`. */
  function TrailingSpace(s: string): (n: nat)
    ensures n <= |s|
    ensures forall k :: |s| - n <= k < |s| ==> IsSpace(s[k])
    ensures n < |s| ==> !IsSpace(s[|s| - n - 1])
  {
    if s != [] && IsSpace(s[|s| - 1]) then 1 + TrailingSpace(s[..|s| - 1]) else 0
  }

  predicate Occurs(t: string, s: string, i: nat) {
    i + |t| <= |s| && s[i..i + |t|] == t
  }

  /** Python's `s.strip()`: remove whitespace from both ends. */
  function Strip(s: string): string {
    var t := s[LeadingSpace(s)..];
    t[..|t| - TrailingSpace(t)]
  }

  /**
   * What `strip()` returns: a piece of `s` that neither starts nor ends with
   * whitespace, everything cut away on either side being whitespace.
   */
  lemma StripTrims(s: string)
    ensures var r := Strip(s);
            && (r != [] ==> !IsSpace(r[0]) && !IsSpace(r[|r| - 1]))
            && exists i: nat :: Occurs(r, s, i)
                                && (forall k :: 0 <= k < i ==> IsSpace(s[k]))
                                && (forall k :: i + |r| <= k < |s| ==> IsSpace(s[k]))
  {
    var i := LeadingSpace(s);
    var t := s[i..];
    var j := TrailingSpace(t);
    var r := t[..|t| - j];
    assert Strip(s) == r;
    if r != [] {
      assert r[0] == s[i];
      assert r[|r| - 1] == t[|t| - j - 1];
    }
    assert Occurs(r, s, i);
    assert forall k :: i + |r| <= k < |s| ==> IsSpace(s[k]) by {
      forall k | i + |r| <= k < |s| ensures IsSpace(s[k]) {
        assert s[k] == t[k - i];
      }
    }
  }

  /** Stripping twice changes nothing more. */
  lemma StripIdempotent(s: string)
    ensures Strip(Strip(s)) == Strip(s)
  {
    var r := Strip(s);
    if r != [] {
      assert LeadingSpace(r) == 0;
      assert r[0..] == r;
      assert TrailingSpace(r) == 0;
    }
  }

  /**
   * The part of Python's `str.lower()` that can matter for the consent test:
   * ASCII capitals and U+212A KELVIN SIGN (whose lower case is 'k'). No other
   * character lowers to a character of a consent word.
   */
  function LowerChar(c: char): char {
    if 'A' <= c <= 'Z' then (c as int + 32) as char
    else if c == '\U{212A}' then 'k'
    else c
  }

  function Lower(s: string): string {
    seq(|s|, i requires 0 <= i < |s| => LowerChar(s[i]))
  }

  /** The words accepted as consent, after lower-casing. */
  const ConsentWords: seq<string> := ["同意", "はい", "ok", "了解"]

  /** `text.lower() in ['同意', 'はい', 'ok', '了解']` */
  predicate IsConsent(text: string) {
    Lower(text) in ConsentWords
  }

  /**
   * Exactly these texts give consent: the three Japanese words as written,
   * and "ok" in any mix of cases (including the Kelvin sign for k).
   */
  lemma ConsentAccepted(text: string)
    ensures IsConsent(text) <==>
              || text == "同意" || text == "はい" || text == "了解"
              || (|text| == 2 && (text[0] == 'o' || text[0] == 'O')
                  && (text[1] == 'k' || text[1] == 'K' || text[1] == '\U{212A}'))
  {
    if |text| == 2 {
      var l := Lower(text);
      assert l == [LowerChar(text[0]), LowerChar(text[1])];
      assert text == [text[0], text[1]];
    }
  }

  // ---- reply texts ----

  const WelcomeText: string :=
    "いずみ薬局 テスト店では、LINEにて処方箋の受付を行っています。\n"
    + "個人情報は印刷および管理のために使用されます。\n"
    + "同意される方は『同意』と返信してください。\n"
    + "弊社プライバシーポリシー\nhttp://izumi-group.com/privacy/"

  const ImageReceivedText: string :=
    "📸 処方箋画像を受け取りました。\n"
    + "複数ある場合は続けて送信してください。\n"
    + "すべて送信したら、電話番号を入力してください。"

  const ConsentThanksText: string :=
    "✅ ご同意ありがとうございます。\n処方箋の受付方法は以下の画像をご覧ください："

  /** The how-to image sent after consent (original and preview URL are the same). */
  const GuideImageUrl: string := "https://drive.google.com/uc?id=1gXkCnQHz9S7Dwiu0g-3VlvBGvACTiiwa"

  const ConsentRequiredText: string := "ご利用には同意が必要です。「同意」と送信してください。"

  const PhoneConfirmedText: string :=
    "📞 電話番号を確認しました。\n次に受け取り希望日時を入力してください（例：6月14日 15時）。"

  const ConfirmationHead: string := "✅ ありがとうございます！以下の内容で受付しました：\n"
  const SummaryHead: string := "📄 受付内容：\n"
  const ReceiptLabel: string := "受付番号："
  const CountLabel: string := "画像枚数："
  const PhoneLabel: string := "電話番号："
  const PickupLabel: string := "受け取り日時："

  /** The fixed replies. */
  datatype Notice = Welcome | ImageReceived | ConsentThanks | ConsentRequired | PhoneConfirmed

  function Wording(n: Notice): string {
    match n
    case Welcome => WelcomeText
    case ImageReceived => ImageReceivedText
    case ConsentThanks => ConsentThanksText
    case ConsentRequired => ConsentRequiredText
    case PhoneConfirmed => PhoneConfirmedText
  }

  /** Different notices read differently, so a notice stands for its text. */
  lemma WordingDistinct(a: Notice, b: Notice)
    ensures Wording(a) == Wording(b) <==> a == b
  {
  }

  /** One labelled line of the summary. */
  function Line(title: string, value: string): string {
    title + value + "\n"
  }

  /** The completion reply: a fixed heading, then one labelled line per field. */
  function Confirmation(receiptId: string, imageCount: nat, phone: string, pickupTime: string): string {
    ConfirmationHead + SummaryHead
    + Line(ReceiptLabel, receiptId)
    + Line(CountLabel, Decimal(imageCount) + "枚")
    + Line(PhoneLabel, phone)
    + Line(PickupLabel, pickupTime)
  }

  lemma OccursBetween(p: string, x: string, q: string)
    ensures Occurs(x, p + x + q, |p|)
  {
    assert (p + x + q)[|p|..|p| + |x|] == x;
  }

  /** Each of four pieces following a head occurs in their concatenation. */
  lemma PiecesOccur(h: string, l1: string, l2: string, l3: string, l4: string)
    ensures var c := h + l1 + l2 + l3 + l4;
            && Occurs(l1, c, |h|)
            && Occurs(l2, c, |h + l1|)
            && Occurs(l3, c, |h + l1 + l2|)
            && Occurs(l4, c, |h + l1 + l2 + l3|)
  {
    var c := h + l1 + l2 + l3 + l4;
    OccursBetween(h, l1, l2 + l3 + l4);
    assert c == h + l1 + (l2 + l3 + l4);
    OccursBetween(h + l1, l2, l3 + l4);
    assert c == (h + l1) + l2 + (l3 + l4);
    OccursBetween(h + l1 + l2, l3, l4);
    OccursBetween(h + l1 + l2 + l3, l4, []);
    assert c == h + l1 + l2 + l3 + l4 + [];
  }

  /** The completion reply shows every field on its own labelled line. */
  lemma ConfirmationShowsFields(receiptId: string, imageCount: nat, phone: string, pickupTime: string)
    ensures var c := Confirmation(receiptId, imageCount, phone, pickupTime);
            && (exists i: nat :: Occurs(Line(ReceiptLabel, receiptId), c, i))
            && (exists i: nat :: Occurs(Line(CountLabel, Decimal(imageCount) + "枚"), c, i))
            && (exists i: nat :: Occurs(Line(PhoneLabel, phone), c, i))
            && (exists i: nat :: Occurs(Line(PickupLabel, pickupTime), c, i))
  {
    PiecesOccur(ConfirmationHead + SummaryHead, Line(ReceiptLabel, receiptId),
                Line(CountLabel, Decimal(imageCount) + "枚"), Line(PhoneLabel, phone), Line(PickupLabel, pickupTime));
  }
}
