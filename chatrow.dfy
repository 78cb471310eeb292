/**
 * The chat list row (components/ChatRow.tsx): the unread badge and the style
 * of the message preview.
 */
module ChatRow {
  import opened Optional
  import opened Strings
  import Swipeable

  /** Counts above this are shown as `99+`. */
  const BadgeCap: int := 99
  const CappedText: string := "99+"

  function DigitChar(d: nat): (c: char)
    requires d < 10
    ensures IsDigit(c)
  {
    "0123456789"[d]
  }

  function CharValue(c: char): (d: nat)
    requires IsDigit(c)
    ensures d < 10
  {
    (c as int - '0' as int) as nat
  }

  /** `String(n)` for a natural number: its decimal digits, without leading zeros. */
  function Decimal(n: nat): (s: string)
    ensures 1 <= |s|
    ensures AllDigits(s)
    ensures n > 0 ==> s[0] != '0'
    decreases n
  {
    if n < 10 then [DigitChar(n)] else Decimal(n / 10) + [DigitChar(n % 10)]
  }

  /** The number a string of decimal digits denotes. */
  function DecimalValue(s: string): nat
    requires AllDigits(s)
  {
    if s == [] then 0 else DecimalValue(s[..|s| - 1]) * 10 + CharValue(s[|s| - 1])
  }

  /** Reading back the digits gives the number. */
  lemma {:induction false} DecimalRoundTrip(n: nat)
    ensures DecimalValue(Decimal(n)) == n
    decreases n
  {
    var s := Decimal(n);
    if n < 10 {
      assert s[..0] == [];
    } else {
      DecimalRoundTrip(n / 10);
      assert s[..|s| - 1] == Decimal(n / 10);
    }
  }

  /** Numbers below one hundred have at most two digits. */
  lemma {:induction false} DecimalLength(n: nat)
    ensures n < 10 ==> |Decimal(n)| == 1
    ensures n < 100 ==> |Decimal(n)| <= 2
  {
    if n >= 10 {
      DecimalLength(n / 10);
    }
  }

  /** The badge's text, when a badge is shown. */
  function BadgeText(unreadCount: int): (badge: Option<string>)
    ensures badge.Some? <==> unreadCount > 0
    ensures unreadCount > BadgeCap ==> badge == Some(CappedText)
    ensures 0 < unreadCount <= BadgeCap ==>
      badge.Some? && AllDigits(badge.value) && DecimalValue(badge.value) == unreadCount && badge.value[0] != '0'
    ensures badge.Some? ==> 1 <= |badge.value| <= 3
  {
    if unreadCount <= 0 then None
    else if unreadCount > BadgeCap then Some(CappedText)
    else
      DecimalRoundTrip(unreadCount);
      DecimalLength(unreadCount);
      Some(Decimal(unreadCount))
  }

  /** The styles a preview line can take. */
  datatype MessageStyle = Regular | Unread

  /** The preview of a chat not yet read is drawn in the unread style. */
  function PreviewStyle(read: bool): (style: MessageStyle)
    ensures style == Unread <==> !read
  {
    if !read then Unread else Regular
  }

  /** The row passes both callbacks, so both swipe actions are offered. */
  lemma RowOffersBothActions()
    ensures Swipeable.ActionButtons(true, true) == [Swipeable.Archive, Swipeable.Delete]
  {
  }
}
