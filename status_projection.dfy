/** How the dashboards present one route's visit record: the colour and the
    status text of the admin's status cards, the colour, label and badge of
    the driver's route cards, and the badge of the admin's visit history.
    Every projection reads only the first log of the route (`logs[0]`). */
module StatusProjection {
  import opened Records

  // ---------------------------------------------------------------------
  // The outcome a log list stands for
  // ---------------------------------------------------------------------

  /** The colour family a card is drawn in. */
  datatype Tone = Idle | Blue | Orange | Indigo | Gray

  /** The shared colour choice of both dashboards' `getStatusColor`: idle
      without logs, one family per known type except OTHER, and gray for
      OTHER and every unknown type. */
  function ToneOf(logs: seq<DeliveryLog>): (tone: Tone)
    ensures logs == [] <==> tone == Idle
    ensures logs != [] && logs[0].logType == DELIVERY <==> tone == Blue
    ensures logs != [] && logs[0].logType == PICKUP <==> tone == Orange
    ensures logs != [] && logs[0].logType == BOTH <==> tone == Indigo
    ensures logs != [] && !(logs[0].logType in {DELIVERY, PICKUP, BOTH}) <==> tone == Gray
  {
    if logs == [] then Idle
    else if logs[0].logType == DELIVERY then Blue
    else if logs[0].logType == PICKUP then Orange
    else if logs[0].logType == BOTH then Indigo
    else Gray
  }

  /** Only the first log's type matters: later logs, and the first log's other
      fields, never change the colour. */
  lemma ToneReadsFirstType(a: seq<DeliveryLog>, b: seq<DeliveryLog>)
    requires a != [] && b != [] && a[0].logType == b[0].logType
    ensures ToneOf(a) == ToneOf(b)
  {
  }

  // ---------------------------------------------------------------------
  // The admin's status cards
  // ---------------------------------------------------------------------

  /** The admin card's class string for a tone. */
  function AdminToneClass(tone: Tone): string {
    match tone
    case Idle => "bg-slate-100 text-slate-400 border-slate-200"
    case Blue => "bg-blue-100 text-toss-blue border-blue-200"
    case Orange => "bg-orange-100 text-orange-600 border-orange-200"
    case Indigo => "bg-indigo-100 text-indigo-600 border-indigo-200"
    case Gray => "bg-gray-100 text-gray-600 border-gray-200"
  }

  /** The admin's `getStatusColor`. */
  function AdminStatusColor(logs: seq<DeliveryLog>): (cls: string)
    ensures logs == [] ==> cls == "bg-slate-100 text-slate-400 border-slate-200"
    ensures logs != [] && !(logs[0].logType in {DELIVERY, PICKUP, BOTH}) ==>
              cls == "bg-gray-100 text-gray-600 border-gray-200"
  {
    AdminToneClass(ToneOf(logs))
  }

  /** Different tones get different class strings, so the colour tells the
      outcomes apart exactly as far as `ToneOf` does. */
  lemma AdminToneClassInjective(x: Tone, y: Tone)
    requires x != y
    ensures AdminToneClass(x) != AdminToneClass(y)
  {
  }

  /** The admin's label table; `None` for a type that is not one of its keys. */
  function AdminLabel(logType: string): (name: Option<string>)
    ensures name.Some? <==> KnownLogType(logType)
  {
    if logType == DELIVERY then Some("배송 완료")
    else if logType == PICKUP then Some("회수 완료")
    else if logType == BOTH then Some("배송+회수")
    else if logType == OTHER then Some("기타")
    else None
  }

  /** The four known types get four different labels. */
  lemma AdminLabelInjective(a: string, b: string)
    requires KnownLogType(a) && KnownLogType(b) && a != b
    ensures AdminLabel(a) != AdminLabel(b)
  {
  }

  /** The admin's `getStatusText`: '대기 중' without logs; otherwise the label
      and, in parentheses, the first log's time. A type outside the table
      shows as the text "undefined", the way the template literal prints a
      missing key. */
  function AdminStatusText(logs: seq<DeliveryLog>): (text: string)
    ensures logs == [] ==> text == "대기 중"
    ensures logs != [] ==> |text| > 0 && text[|text| - 1] == ')' && text != "대기 중"
  {
    if logs == [] then "대기 중"
    else AdminLabel(logs[0].logType).GetOr("undefined") + " (" + logs[0].createdAt + ")"
  }

  /** The status text is '대기 중' exactly when there is no log; otherwise it
      starts with the label of the first log's type and ends with its time in
      parentheses. */
  lemma AdminStatusTextShape(logs: seq<DeliveryLog>)
    ensures logs == [] <==> AdminStatusText(logs) == "대기 중"
    ensures logs != [] ==>
      var name := AdminLabel(logs[0].logType).GetOr("undefined");
      var text := AdminStatusText(logs);
      && text[..|name|] == name
      && text[|name|..] == " (" + logs[0].createdAt + ")"
  {
    if logs != [] {
      var name := AdminLabel(logs[0].logType).GetOr("undefined");
      var text := AdminStatusText(logs);
      assert text == name + (" (" + logs[0].createdAt + ")");
      assert text[|name|] == ' ';
      assert "대기 중"[|"대기 중"| - 1] == '중';
      assert text[|text| - 1] == ')';
    }
  }

  // ---------------------------------------------------------------------
  // The driver's route cards
  // ---------------------------------------------------------------------

  /** The driver card's class string for a tone. */
  function DriverToneClass(tone: Tone): string {
    match tone
    case Idle => "bg-white border-white hover:border-blue-100"
    case Blue => "bg-blue-50 border-blue-200"
    case Orange => "bg-orange-50 border-orange-200"
    case Indigo => "bg-indigo-50 border-indigo-200"
    case Gray => "bg-gray-100 border-gray-200"
  }

  /** The driver's `getStatusColor`. */
  function DriverStatusColor(logs: seq<DeliveryLog>): (cls: string)
    ensures logs == [] ==> cls == "bg-white border-white hover:border-blue-100"
    ensures logs != [] && !(logs[0].logType in {DELIVERY, PICKUP, BOTH}) ==> cls == "bg-gray-100 border-gray-200"
  {
    DriverToneClass(ToneOf(logs))
  }

  /** Different tones get different driver card classes. */
  lemma DriverToneClassInjective(x: Tone, y: Tone)
    requires x != y
    ensures DriverToneClass(x) != DriverToneClass(y)
  {
  }

  /** The driver's `getStatusLabel`: a fixed label for each known type, and
      the raw type itself for anything else. */
  function DriverStatusLabel(logType: string): (name: string)
    ensures !KnownLogType(logType) ==> name == logType
  {
    if logType == DELIVERY then "배송 완료"
    else if logType == PICKUP then "회수 완료"
    else if logType == BOTH then "배송+회수"
    else if logType == OTHER then "기타 작업"
    else logType
  }

  /** Known types get four different labels, none of which is itself a known
      type's name. */
  lemma DriverLabelInjective(a: string, b: string)
    requires KnownLogType(a) && KnownLogType(b) && a != b
    ensures DriverStatusLabel(a) != DriverStatusLabel(b)
    ensures !KnownLogType(DriverStatusLabel(a))
  {
    var l := DriverStatusLabel(a);
    assert l[0] != 'D' && l[0] != 'P' && l[0] != 'B' && l[0] != 'O';
  }

  /** The badge at the top of a completed card (its class only; the text is
      `DriverStatusLabel`): blue for DELIVERY, orange for PICKUP, indigo for
      every other type. */
  function CardBadgeClass(logType: string): (cls: string)
    ensures logType != DELIVERY && logType != PICKUP ==> cls == "bg-indigo-100 text-indigo-600"
  {
    if logType == DELIVERY then "bg-blue-100 text-toss-blue"
    else if logType == PICKUP then "bg-orange-100 text-orange-600"
    else "bg-indigo-100 text-indigo-600"
  }

  // ---------------------------------------------------------------------
  // The visit-history badge
  // ---------------------------------------------------------------------

  datatype Badge = Badge(cls: string, caption: string)

  const Unfinished: Badge := Badge("bg-slate-100 text-slate-400", "미완료")

  /** The history entry's badge as the admin dashboard writes it: '미완료'
      without a log; otherwise '배송' for DELIVERY, '회수' for PICKUP and
      '배송+회수' for every other type, OTHER included. */
  function HistoryBadgeAsWritten(logs: seq<DeliveryLog>): (b: Badge)
    ensures logs == [] <==> b == Unfinished
  {
    if logs == [] then Unfinished
    else
      var t := logs[0].logType;
      Badge(CardBadgeClass(t), if t == DELIVERY then "배송" else if t == PICKUP then "회수" else "배송+회수")
  }

  /** A visit recorded as OTHER ("기타 / 특이사항만 기록": a note only) is shown
      with the very badge of a visit that delivered and picked up. */
  lemma HistoryOtherShownAsBoth(r: nat, memo: string, at: string)
    ensures HistoryBadgeAsWritten([DeliveryLog(0, r, OTHER, memo, at)])
         == HistoryBadgeAsWritten([DeliveryLog(1, r, BOTH, "", at)])
    ensures HistoryBadgeAsWritten([DeliveryLog(0, r, OTHER, memo, at)]).caption == "배송+회수"
  {
  }

  /** The history badge with a label of its own for OTHER ('기타'), as the
      status text of the same dashboard names it. */
  function HistoryBadge(logs: seq<DeliveryLog>): (b: Badge)
    ensures logs == [] <==> b == Unfinished
  {
    if logs == [] then Unfinished
    else
      var t := logs[0].logType;
      Badge(CardBadgeClass(t),
            if t == DELIVERY then "배송" else if t == PICKUP then "회수"
            else if t == OTHER then "기타" else "배송+회수")
  }

  /** With the correction, the four outcome types get four different badges,
      and none of them is the unfinished one. */
  lemma HistoryBadgeTellsOutcomes(a: seq<DeliveryLog>, b: seq<DeliveryLog>)
    requires a != [] && b != []
    requires KnownLogType(a[0].logType) && KnownLogType(b[0].logType)
    requires a[0].logType != b[0].logType
    ensures HistoryBadge(a).caption != HistoryBadge(b).caption
    ensures HistoryBadge(a) != Unfinished
  {
  }

  /** The correction changes only the OTHER case. */
  lemma HistoryBadgeCorrectsOnlyOther(logs: seq<DeliveryLog>)
    ensures logs == [] || logs[0].logType != OTHER ==> HistoryBadge(logs) == HistoryBadgeAsWritten(logs)
    ensures logs != [] && logs[0].logType == OTHER ==> HistoryBadge(logs) != HistoryBadgeAsWritten(logs)
  {
  }
}
