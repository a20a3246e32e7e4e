/**
 * The meeting request handler of the meeting UI process
 * (`NEMeetingServiceProcHandlerIMP`): it validates start and join requests,
 * keeps at most one pending callback per operation, and answers the stored
 * callbacks when the meeting status changes.
 *
 * The validators over menu-item lists are specified by predicates on the
 * list and implemented by the loops the source runs. The handler is a class
 * whose fields are the three callback slots plus two logs: every callback
 * invocation (`replies`) and every task handed to the UI thread (`posted`).
 */
module MeetingProcHandler {
  import opened Wrappers
  import opened Callbacks
  import MeetingProtocol

  type MenuItem = MeetingProtocol.MenuItem

  /** `MENU_ITEM_TITLE_LIMIT`: the most code points a menu title may have. */
  const TitleLimit := 10

  /** The largest number of entries a host or a non-host may see in each menu. */
  const MoreMenuLimit := 10
  const ToolbarLimit := 7

  /** Shortest accepted non-empty start password. */
  const PasswordMinLength := 4

  /*
   * Built-in menu ids, the first id free for injected items, and the
   * visibility values. Their numbers come from an SDK header that is not
   * part of this model, so they are left unspecified.
   */
  const MicMenuId: int
  const CameraMenuId: int
  const ScreenShareMenuId: int
  const ParticipantsMenuId: int
  const ManageParticipantsMenuId: int
  const InviteMenuId: int
  const ChatMenuId: int
  const ViewMenuId: int
  const WhiteboardMenuId: int
  const FirstInjectedMenuId: int

  const VisibleAlways: int
  const VisibleExcludeHost: int
  const VisibleToHostOnly: int

  /** `NEMeeting::Status`; `OtherStatus` stands for the values no branch of the handler names. */
  datatype MeetingStatus =
    | Idle | Connecting | Preparing | Connected | Reconnected | Ended | ConnectFailed
    | OtherStatus(code: int)

  // ------------------------------------------------------------ duplicates

  /** The ids a `std::set` of the items keeps. */
  function IdSet(items: seq<MenuItem>): set<int>
  {
    if items == [] then {} else {items[0].itemId} + IdSet(items[1..])
  }

  predicate DistinctIds(items: seq<MenuItem>)
  {
    forall i, j | 0 <= i < j < |items| :: items[i].itemId != items[j].itemId
  }

  lemma {:induction false} IdSetMembers(items: seq<MenuItem>, id: int)
    ensures id in IdSet(items) <==> exists i | 0 <= i < |items| :: items[i].itemId == id
  {
    if items != [] {
      IdSetMembers(items[1..], id);
      if exists i | 0 <= i < |items[1..]| :: items[1..][i].itemId == id {
        var i :| 0 <= i < |items[1..]| && items[1..][i].itemId == id;
        assert items[i + 1].itemId == id;
      }
      if exists i | 0 <= i < |items| :: items[i].itemId == id {
        var i :| 0 <= i < |items| && items[i].itemId == id;
        if i > 0 {
          assert items[1..][i - 1].itemId == id;
        }
      }
    }
  }

  /**
   * `checkOptionsEx`: an empty list passes; otherwise the items must not
   * collapse when put in a `std::set`, whose ordering compares `itemId`.
   */
  function CheckOptionsEx(items: seq<MenuItem>): bool
  {
    items == [] || |IdSet(items)| == |items|
  }

  /** A `std::set` never holds more ids than items went in, and holds as many exactly when no id repeats. */
  lemma {:induction false} IdSetSize(items: seq<MenuItem>)
    ensures |IdSet(items)| <= |items|
    ensures |IdSet(items)| == |items| <==> DistinctIds(items)
  {
    if items != [] {
      var t := items[1..];
      var id := items[0].itemId;
      IdSetSize(t);
      IdSetMembers(t, id);
      if id in IdSet(t) {
        assert IdSet(items) == IdSet(t);
        var k :| 0 <= k < |t| && t[k].itemId == id;
        assert items[k + 1].itemId == id;
      } else {
        assert |IdSet(items)| == |IdSet(t)| + 1;
        if DistinctIds(t) {
          forall i, j | 0 <= i < j < |items|
            ensures items[i].itemId != items[j].itemId
          {
            assert items[j] == t[j - 1];
            if i > 0 {
              assert items[i] == t[i - 1];
            }
          }
        } else {
          var i, j :| 0 <= i < j < |t| && t[i].itemId == t[j].itemId;
          assert items[i + 1].itemId == items[j + 1].itemId;
        }
      }
    }
  }

  /** `checkOptionsEx` passes exactly the lists in which no two items share an id. */
  lemma CheckOptionsExDistinct(items: seq<MenuItem>)
    ensures CheckOptionsEx(items) <==> DistinctIds(items)
  {
    IdSetSize(items);
  }

  // ------------------------------------------------------ id restrictions

  /** The nine built-in ids `checkOptionsId` lets through without the threshold test. */
  function BuiltInMenuIds(): seq<int>
  {
    [MicMenuId, CameraMenuId, ScreenShareMenuId, ParticipantsMenuId, ManageParticipantsMenuId,
     InviteMenuId, ChatMenuId, ViewMenuId, WhiteboardMenuId]
  }

  predicate IdAllowed(id: int, injected: bool)
  {
    (!injected && id in BuiltInMenuIds()) || id >= FirstInjectedMenuId
  }

  predicate IdsAllowed(items: seq<MenuItem>, injected: bool)
  {
    forall i | 0 <= i < |items| :: IdAllowed(items[i].itemId, injected)
  }

  /** `checkOptionsId`: every id is a skipped built-in one or at least `kFirstinjectedMenuId`. */
  method CheckOptionsId(items: seq<MenuItem>, injected: bool) returns (ok: bool)
    ensures ok <==> IdsAllowed(items, injected)
  {
    for i := 0 to |items|
      invariant forall k | 0 <= k < i :: IdAllowed(items[k].itemId, injected)
    {
      if !injected && items[i].itemId in BuiltInMenuIds() {
        continue;
      }
      if items[i].itemId < FirstInjectedMenuId {
        return false;
      }
    }
    return true;
  }

  /** The ids `checkOptionsExMore` refuses in the "more" menu. */
  function MoreForbiddenIds(): set<int>
  {
    {MicMenuId, CameraMenuId, ManageParticipantsMenuId, ChatMenuId}
  }

  predicate NoForbiddenInMore(items: seq<MenuItem>)
  {
    forall i | 0 <= i < |items| :: items[i].itemId !in MoreForbiddenIds()
  }

  /** `checkOptionsExMore`: the sorted ids and the sorted forbidden ids have an empty intersection. */
  function CheckOptionsExMore(items: seq<MenuItem>): bool
  {
    MoreForbiddenIds() * IdSet(items) == {}
  }

  lemma CheckOptionsExMoreItems(items: seq<MenuItem>)
    ensures CheckOptionsExMore(items) <==> NoForbiddenInMore(items)
  {
    if !NoForbiddenInMore(items) {
      var i :| 0 <= i < |items| && items[i].itemId in MoreForbiddenIds();
      IdSetMembers(items, items[i].itemId);
      assert items[i].itemId in MoreForbiddenIds() * IdSet(items);
    }
    if !CheckOptionsExMore(items) {
      var id :| id in MoreForbiddenIds() * IdSet(items);
      IdSetMembers(items, id);
    }
  }

  // ------------------------------------------------------------ visibility

  /** Whether the item shows for the host (`host`) or for everybody else (`!host`). */
  predicate ShownTo(m: MenuItem, host: bool)
  {
    m.itemVisibility == VisibleAlways
    || m.itemVisibility == (if host then VisibleToHostOnly else VisibleExcludeHost)
  }

  function ShownCount(items: seq<MenuItem>, host: bool): (n: nat)
    ensures n <= |items|
  {
    if items == [] then 0
    else ShownCount(items[..|items| - 1], host) + (if ShownTo(items[|items| - 1], host) then 1 else 0)
  }

  predicate VisibilityWithin(items: seq<MenuItem>, limit: int)
  {
    ShownCount(items, true) <= limit && ShownCount(items, false) <= limit
  }

  /** `checkOptionsVisibility`: count host-visible and non-host-visible items; both must be within the limit. */
  method CheckOptionsVisibility(items: seq<MenuItem>, lengthLimit: int) returns (ok: bool)
    ensures ok <==> VisibilityWithin(items, lengthLimit)
  {
    var hostCount, othersCount := 0, 0;
    for i := 0 to |items|
      invariant hostCount == ShownCount(items[..i], true)
      invariant othersCount == ShownCount(items[..i], false)
    {
      assert items[..i + 1][..i] == items[..i];
      if items[i].itemVisibility == VisibleAlways || items[i].itemVisibility == VisibleExcludeHost {
        othersCount := othersCount + 1;
      }
      if items[i].itemVisibility == VisibleAlways || items[i].itemVisibility == VisibleToHostOnly {
        hostCount := hostCount + 1;
      }
    }
    assert items[..|items|] == items;
    ok := hostCount <= lengthLimit && othersCount <= lengthLimit;
  }

  /** Items visible to everybody count for both audiences, so a list of them passes only when it is short enough. */
  lemma {:induction false} AlwaysVisibleCounts(items: seq<MenuItem>, limit: int)
    requires forall i | 0 <= i < |items| :: items[i].itemVisibility == VisibleAlways
    ensures ShownCount(items, true) == |items| && ShownCount(items, false) == |items|
    ensures VisibilityWithin(items, limit) <==> |items| <= limit
  {
    if items != [] {
      AlwaysVisibleCounts(items[..|items| - 1], limit);
    }
  }

  // --------------------------------------------------------------- content

  /** `QChar::isSpace` on the Latin-1 range. */
  predicate IsSpace(c: char)
  {
    c == ' ' || '\t' <= c <= '\r' || c == '\U{85}' || c == '\U{A0}'
  }

  function TrimStart(s: string): (r: string)
    ensures |r| <= |s| && r == s[|s| - |r|..]
    ensures r == [] || !IsSpace(r[0])
    ensures forall i | 0 <= i < |s| - |r| :: IsSpace(s[i])
  {
    if s != [] && IsSpace(s[0]) then TrimStart(s[1..]) else s
  }

  function TrimEnd(s: string): (r: string)
    ensures |r| <= |s| && r == s[..|r|]
    ensures r == [] || !IsSpace(r[|r| - 1])
    ensures forall i | |r| <= i < |s| :: IsSpace(s[i])
  {
    if s != [] && IsSpace(s[|s| - 1]) then TrimEnd(s[..|s| - 1]) else s
  }

  /** `QString::trimmed`: both ends stripped of spaces. */
  function Trimmed(s: string): string
  {
    TrimEnd(TrimStart(s))
  }

  /** Text made of spaces only (or nothing). */
  predicate Blank(s: string)
  {
    forall i | 0 <= i < |s| :: IsSpace(s[i])
  }

  /** Trimming leaves nothing exactly for blank text, and otherwise starts and ends on a non-space. */
  lemma TrimmedBlank(s: string)
    ensures Trimmed(s) == [] <==> Blank(s)
    ensures Trimmed(s) != [] ==> !IsSpace(Trimmed(s)[0]) && !IsSpace(Trimmed(s)[|Trimmed(s)| - 1])
  {
    var t := TrimStart(s);
    var r := TrimEnd(t);
    assert r != [] ==> r[0] == t[0];
    if r == [] {
      // a trimmed start that is not empty begins with a non-space, which TrimEnd would keep
      assert t == [];
    }
    assert t == [] || t[0] == s[|s| - |t|];
  }

  /**
   * The per-item rules of `checkOptions`: `title2` and `image2` present
   * together or not at all, a non-blank title and image, and titles of at
   * most `TitleLimit` code points. With `injected` only the non-blank title
   * and its length are checked.
   */
  predicate ItemContentValid(m: MenuItem, injected: bool)
  {
    && (injected || (Blank(m.itemTitle2) <==> Blank(m.itemImage2)))
    && !Blank(m.itemTitle)
    && (injected || !Blank(m.itemImage))
    && |m.itemTitle| <= TitleLimit
    && (injected || Blank(m.itemTitle2) || |m.itemTitle2| <= TitleLimit)
  }

  predicate ContentValid(items: seq<MenuItem>, injected: bool)
  {
    forall i | 0 <= i < |items| :: ItemContentValid(items[i], injected)
  }

  /** One pass of the `do { } while (false)` block of `checkOptions`, which breaks at the first failed rule. */
  method CheckItemContent(item: MenuItem, injected: bool) returns (correct: bool)
    ensures correct <==> ItemContentValid(item, injected)
  {
    TrimmedBlank(item.itemTitle2);
    TrimmedBlank(item.itemImage2);
    TrimmedBlank(item.itemTitle);
    TrimmedBlank(item.itemImage);
    correct := false;
    var title2 := Trimmed(item.itemTitle2);
    var image2 := Trimmed(item.itemImage2);
    if !injected && ((title2 != [] && image2 == []) || (image2 != [] && title2 == [])) {
      return;
    }
    if Trimmed(item.itemTitle) == [] {
      return;
    }
    if !injected && Trimmed(item.itemImage) == [] {
      return;
    }
    if |item.itemTitle| > TitleLimit {
      return;
    }
    if !injected && title2 != [] && |item.itemTitle2| > TitleLimit {
      return;
    }
    correct := true;
  }

  /** `checkOptions`: every item passes the content rules. */
  method CheckOptions(items: seq<MenuItem>, injected: bool) returns (ok: bool)
    ensures ok <==> ContentValid(items, injected)
  {
    for i := 0 to |items|
      invariant forall k | 0 <= k < i :: ItemContentValid(items[k], injected)
    {
      var correct := CheckItemContent(items[i], injected);
      if !correct {
        return false;
      }
    }
    return true;
  }

  // -------------------------------------------------------------- password

  predicate IsDigit(c: char)
  {
    '0' <= c <= '9'
  }

  /** The `isDigit` lambda of `onStartMeeting`. */
  method AllDigits(s: string) returns (ok: bool)
    ensures ok <==> forall i | 0 <= i < |s| :: IsDigit(s[i])
  {
    for i := 0 to |s|
      invariant forall k | 0 <= k < i :: IsDigit(s[k])
    {
      if !IsDigit(s[i]) {
        return false;
      }
    }
    return true;
  }

  /** A start password is either empty or at least four characters, all digits. */
  predicate PasswordAccepted(p: string)
  {
    p == [] || (|p| >= PasswordMinLength && forall i | 0 <= i < |p| :: IsDigit(p[i]))
  }

  // -------------------------------------------------------- error messages

  const DuplicatedAcrossMenus := "the itemId of the full_toolbar_menu_items_ and the full_more_menu_items_ cannot be duplicated"
  const MoreTooMany := "full_more_menu_items_ cannot exceed 10 items"
  const MoreIdTooSmall := "itemId in full_more_menu_items_ cannot be less than kFirstinjectedMenuId"
  const MoreForbidden := "full_more_menu_items_ can not add kMicMenuId, kCameraMenuId, kMangeParticipantsMenuId, kChatMenuId"
  const MoreInvalid := "title or image in full_more_menu_items_ is invalid"
  const ToolbarDuplicated := "itemId in full_toolbar_menu_items_ cannot be duplicated"
  const ToolbarTooMany := "full_toolbar_menu_items_ cannot exceed 7 items"
  const ToolbarIdTooSmall := "itemId in full_toolbar_menu_items_ cannot be less than kFirstinjectedMenuId"
  const ToolbarInvalid := "title or image in full_toolbar_menu_items_ is invalid"
  const PasswordRule := "The password must contain at least 4 digits"
  const InvalidParams := "Invalid params:"
  const FrequentOperation := "Frequent operation, please try again later"
  const LastMeetingNotEnded := "The last meeting is not end yet."
  const PersonalIdOnly := "Only supports personal meeting ID."
  const NotLoggedIn := "Did not logged in."
  const MeetingNotStarted := "The meeting has not yet started."
  const NoPermission := "You have no permission"

  function LineIf(failed: bool, line: string): seq<string>
  {
    if failed then [line] else []
  }

  /** The lines the checks of a non-empty "more" menu add to `listError`, in order. */
  function MoreMenuErrors(more: seq<MenuItem>, toolbar: seq<MenuItem>): seq<string>
  {
    LineIf(!CheckOptionsEx(toolbar + more), DuplicatedAcrossMenus)
    + LineIf(!VisibilityWithin(more, MoreMenuLimit), MoreTooMany)
    + LineIf(!IdsAllowed(more, false), MoreIdTooSmall)
    + LineIf(!CheckOptionsExMore(more), MoreForbidden)
    + LineIf(!ContentValid(more, false), MoreInvalid)
  }

  /** The lines the toolbar checks add to `listError`, in order. */
  function ToolbarErrors(toolbar: seq<MenuItem>): seq<string>
  {
    LineIf(!VisibilityWithin(toolbar, ToolbarLimit), ToolbarTooMany)
    + LineIf(!IdsAllowed(toolbar, false), ToolbarIdTooSmall)
    + LineIf(!ContentValid(toolbar, false), ToolbarInvalid)
  }

  /** The lines the menu checks add to `listError`, in the order the handler runs them. */
  function MenuErrors(more: seq<MenuItem>, toolbar: seq<MenuItem>): seq<string>
  {
    (if more != [] then MoreMenuErrors(more, toolbar) else LineIf(!CheckOptionsEx(toolbar), ToolbarDuplicated))
    + ToolbarErrors(toolbar)
  }

  /** Both menu lists obey every rule, and no id appears twice across the two. */
  predicate MenusAccepted(more: seq<MenuItem>, toolbar: seq<MenuItem>)
  {
    && DistinctIds(toolbar + more)
    && VisibilityWithin(more, MoreMenuLimit) && IdsAllowed(more, false)
    && NoForbiddenInMore(more) && ContentValid(more, false)
    && VisibilityWithin(toolbar, ToolbarLimit) && IdsAllowed(toolbar, false)
    && ContentValid(toolbar, false)
  }

  /**
   * The menu checks report nothing exactly when the menus are acceptable;
   * the duplicate test covers both lists together whether or not the "more"
   * menu is empty.
   */
  lemma MenuErrorsEmpty(more: seq<MenuItem>, toolbar: seq<MenuItem>)
    ensures MenuErrors(more, toolbar) == [] <==> MenusAccepted(more, toolbar)
  {
    CheckOptionsExDistinct(toolbar + more);
    CheckOptionsExDistinct(toolbar);
    CheckOptionsExMoreItems(more);
    if more == [] {
      assert toolbar + more == toolbar;
    }
  }

  /** The checks the handlers run on a non-empty "more" menu. */
  method CollectMoreMenuErrors(more: seq<MenuItem>, toolbar: seq<MenuItem>) returns (errors: seq<string>)
    ensures errors == MoreMenuErrors(more, toolbar)
  {
    var items := toolbar + more;
    var distinct := CheckOptionsEx(items);
    var visible := CheckOptionsVisibility(more, MoreMenuLimit);
    var ids := CheckOptionsId(more, false);
    var allowed := CheckOptionsExMore(more);
    var content := CheckOptions(more, false);
    errors := LineIf(!distinct, DuplicatedAcrossMenus) + LineIf(!visible, MoreTooMany)
      + LineIf(!ids, MoreIdTooSmall) + LineIf(!allowed, MoreForbidden) + LineIf(!content, MoreInvalid);
  }

  /** The checks the handlers run on the toolbar in every case. */
  method CollectToolbarErrors(toolbar: seq<MenuItem>) returns (errors: seq<string>)
    ensures errors == ToolbarErrors(toolbar)
  {
    var visible := CheckOptionsVisibility(toolbar, ToolbarLimit);
    var ids := CheckOptionsId(toolbar, false);
    var content := CheckOptions(toolbar, false);
    errors := LineIf(!visible, ToolbarTooMany) + LineIf(!ids, ToolbarIdTooSmall) + LineIf(!content, ToolbarInvalid);
  }

  /** The menu part of the validation block shared by `onStartMeeting` and `joinMeeting`. */
  method CollectMenuErrors(more: seq<MenuItem>, toolbar: seq<MenuItem>) returns (errors: seq<string>)
    ensures errors == MenuErrors(more, toolbar)
  {
    errors := [];
    if |more| > 0 {
      errors := CollectMoreMenuErrors(more, toolbar);
    }
    if more == [] {
      errors := LineIf(!CheckOptionsEx(toolbar), ToolbarDuplicated);
    }
    var rest := CollectToolbarErrors(toolbar);
    errors := errors + rest;
  }

  /** Everything `onStartMeeting` adds to `listError`: the menu lines, then the password line. */
  function StartErrors(r: MeetingProtocol.StartRequest): seq<string>
  {
    MenuErrors(r.options.fullMoreMenuItems, r.options.fullToolbarMenuItems)
    + LineIf(!PasswordAccepted(r.param.password), PasswordRule)
  }

  /** The validation block of `onStartMeeting`. */
  method CollectStartErrors(r: MeetingProtocol.StartRequest) returns (errors: seq<string>)
    ensures errors == StartErrors(r)
  {
    errors := CollectMenuErrors(r.options.fullMoreMenuItems, r.options.fullToolbarMenuItems);
    var password := r.param.password;
    var digits := AllDigits(password);
    if password != [] && (|password| < PasswordMinLength || !digits) {
      errors := errors + [PasswordRule];
    }
  }

  /** The lines joined with a newline between each two and none at the end. */
  function JoinLines(lines: seq<string>): string
  {
    if |lines| == 0 then ""
    else if |lines| == 1 then lines[0]
    else lines[0] + "\n" + JoinLines(lines[1..])
  }

  lemma {:induction false} JoinLinesSnoc(lines: seq<string>, line: string)
    ensures JoinLines(lines + [line]) == if lines == [] then line else JoinLines(lines) + "\n" + line
  {
    if |lines| >= 2 {
      assert (lines + [line])[1..] == lines[1..] + [line];
      JoinLinesSnoc(lines[1..], line);
    } else if |lines| == 1 {
      assert (lines + [line])[1..] == [line];
    }
  }

  /** The reply text for a failed validation: the header line, then the error lines. */
  function InvalidParamsText(errors: seq<string>): string
  {
    InvalidParams + "\n" + JoinLines(errors)
  }

  predicate EndsWith(s: string, suffix: string)
  {
    |suffix| <= |s| && s[|s| - |suffix|..] == suffix
  }

  /** Text ending in `suffix` still does when something is put in front of it. */
  lemma EndsWithPrefixed(prefix: string, s: string, suffix: string)
    requires EndsWith(s, suffix)
    ensures EndsWith(prefix + s, suffix)
  {
    assert (prefix + s)[|prefix + s| - |suffix|..] == s[|s| - |suffix|..];
  }

  lemma {:induction false} JoinLinesEndsWithLast(lines: seq<string>)
    requires lines != []
    ensures EndsWith(JoinLines(lines), lines[|lines| - 1])
  {
    if |lines| >= 2 {
      JoinLinesEndsWithLast(lines[1..]);
      EndsWithPrefixed(lines[0] + "\n", JoinLines(lines[1..]), lines[|lines| - 1]);
    }
  }

  /** The reply text is the header and the error lines joined by newlines, so it ends with the last error and no newline. */
  lemma InvalidParamsJoined(errors: seq<string>)
    requires errors != []
    ensures InvalidParamsText(errors) == JoinLines([InvalidParams] + errors)
    ensures EndsWith(InvalidParamsText(errors), errors[|errors| - 1])
  {
    assert ([InvalidParams] + errors)[1..] == errors;
    JoinLinesEndsWithLast(errors);
    EndsWithPrefixed(InvalidParams + "\n", JoinLines(errors), errors[|errors| - 1]);
  }

  /** The message-building loop of the handlers' validation failure branch. */
  method BuildInvalidParamsMessage(errors: seq<string>) returns (message: string)
    ensures message == InvalidParamsText(errors)
  {
    message := InvalidParams + "\n";
    var count := |errors|;
    for i := 0 to count
      invariant message == InvalidParams + "\n" + JoinLines(errors[..i]) + (if 0 < i < count then "\n" else "")
    {
      JoinLinesSnoc(errors[..i], errors[i]);
      assert errors[..i + 1] == errors[..i] + [errors[i]];
      message := message + errors[i];
      if i != count - 1 {
        message := message + "\n";
      }
    }
    assert errors[..count] == errors;
  }

  /** The position of the first newline. */
  function NewlineIndex(s: string): (k: nat)
    requires '\n' in s
    ensures k < |s| && s[k] == '\n' && '\n' !in s[..k]
  {
    if s[0] == '\n' then 0
    else
      var k := 1 + NewlineIndex(s[1..]);
      assert s[..k] == [s[0]] + s[1..][..k - 1];
      k
  }

  /** The text cut at every newline. */
  function SplitLines(s: string): (lines: seq<string>)
    ensures |lines| >= 1
    decreases |s|
  {
    if '\n' in s then
      var k := NewlineIndex(s);
      [s[..k]] + SplitLines(s[k + 1..])
    else [s]
  }

  /** Cutting the joined text at its newlines gives the lines back, when none of them holds a newline. */
  lemma {:induction false} SplitJoinLines(lines: seq<string>)
    requires |lines| >= 1
    requires forall i | 0 <= i < |lines| :: '\n' !in lines[i]
    ensures SplitLines(JoinLines(lines)) == lines
  {
    if |lines| >= 2 {
      var first := lines[0];
      var rest := JoinLines(lines[1..]);
      var s := first + "\n" + rest;
      assert s[|first|] == '\n';
      var k := NewlineIndex(s);
      assert s[..k] == first;
      assert s[k + 1..] == rest;
      SplitJoinLines(lines[1..]);
    }
  }

  // -------------------------------------------------------------- outcomes

  /** How a request that found its slot free is answered. */
  datatype Outcome =
    | Proceed
    | Refused(code: int, message: string, returned: bool)

  /**
   * `onStartMeeting` once its slot is known to be free: validation, then
   * the idle check, then the personal-meeting-id check.
   */
  function StartOutcome(r: MeetingProtocol.StartRequest, roomStatus: MeetingStatus, personalRoomId: string): Outcome
  {
    var errors := StartErrors(r);
    if errors != [] then Refused(ParamError, InvalidParamsText(errors), false)
    else if roomStatus != Idle then Refused(AlreadyInMeeting, LastMeetingNotEnded, true)
    else if r.param.meetingId != [] && r.param.meetingId != personalRoomId then Refused(ParamError, PersonalIdOnly, false)
    else Proceed
  }

  /**
   * A start proceeds exactly when its menus and password are acceptable,
   * the meeting is idle and the meeting id is empty or the personal one. A
   * refusal returns true only for "already in meeting".
   */
  lemma StartOutcomeSpec(r: MeetingProtocol.StartRequest, roomStatus: MeetingStatus, personalRoomId: string)
    ensures var o := StartOutcome(r, roomStatus, personalRoomId);
      && (o.Proceed? <==>
            && MenusAccepted(r.options.fullMoreMenuItems, r.options.fullToolbarMenuItems)
            && PasswordAccepted(r.param.password)
            && roomStatus == Idle
            && (r.param.meetingId == [] || r.param.meetingId == personalRoomId))
      && (o.Refused? && o.returned <==>
            && MenusAccepted(r.options.fullMoreMenuItems, r.options.fullToolbarMenuItems)
            && PasswordAccepted(r.param.password)
            && roomStatus != Idle)
      && (o.Refused? && o.returned ==> o.code == AlreadyInMeeting && o.message == LastMeetingNotEnded)
  {
    MenuErrorsEmpty(r.options.fullMoreMenuItems, r.options.fullToolbarMenuItems);
  }

  /** A start with a bad password is refused, and the password line ends the reply. */
  lemma BadPasswordReported(r: MeetingProtocol.StartRequest, roomStatus: MeetingStatus, personalRoomId: string)
    requires !PasswordAccepted(r.param.password)
    ensures var o := StartOutcome(r, roomStatus, personalRoomId);
      && o.Refused? && o.code == ParamError && !o.returned
      && EndsWith(o.message, PasswordRule)
  {
    var errors := StartErrors(r);
    assert errors[|errors| - 1] == PasswordRule;
    InvalidParamsJoined(errors);
  }

  /** `joinMeeting` once its slot is known to be free: validation, then the idle check. */
  function JoinOutcome(r: MeetingProtocol.JoinRequest, roomStatus: MeetingStatus): Outcome
  {
    var errors := MenuErrors(r.options.fullMoreMenuItems, r.options.fullToolbarMenuItems);
    if errors != [] then Refused(ParamError, InvalidParamsText(errors), false)
    else if roomStatus != Idle then Refused(AlreadyInMeeting, LastMeetingNotEnded, true)
    else Proceed
  }

  /** A join proceeds exactly when its menus are acceptable and the meeting is idle; it has no password rule. */
  lemma JoinOutcomeSpec(r: MeetingProtocol.JoinRequest, roomStatus: MeetingStatus)
    ensures var o := JoinOutcome(r, roomStatus);
      && (o.Proceed? <==> MenusAccepted(r.options.fullMoreMenuItems, r.options.fullToolbarMenuItems) && roomStatus == Idle)
      && (o.Refused? && !o.returned ==> o.code == ParamError)
      && (o.Refused? && o.returned <==>
            MenusAccepted(r.options.fullMoreMenuItems, r.options.fullToolbarMenuItems) && roomStatus != Idle)
  {
    MenuErrorsEmpty(r.options.fullMoreMenuItems, r.options.fullToolbarMenuItems);
  }

  /** The checks the posted leave task makes before asking the engine to leave; `None` means it leaves. */
  function LeaveTaskFailure(finish: bool, loggedIn: bool, roomStatus: MeetingStatus, isHost: bool): (failure: Option<string>)
    ensures failure.None? <==>
      (roomStatus == Connected || roomStatus == Reconnected) && (finish ==> loggedIn && isHost)
  {
    if finish && !loggedIn then Some(NotLoggedIn)
    else if roomStatus != Connected && roomStatus != Reconnected then Some(MeetingNotStarted)
    else if finish && !isHost then Some(NoPermission)
    else None
  }

  // ---------------------------------------------------------- status change

  /** `convertExtentedCode`: 0 and 200 mean success, 3100 means already in a meeting, anything else passes through. */
  function ConvertExtendedCode(extendedCode: int): (code: int)
    ensures extendedCode == 0 || extendedCode == 200 ==> code == Success
    ensures extendedCode == 3100 ==> code == FailedAlreadyInMeeting
    ensures extendedCode !in {0, 200, 3100} ==> code == extendedCode
  {
    if extendedCode == 0 || extendedCode == 200 then Success
    else if extendedCode == 3100 then FailedAlreadyInMeeting
    else extendedCode
  }

  /** The connect-failure reasons the handler reports to start and join as success. */
  function SilentFailureReasons(): set<string>
  {
    {"joinTimeoutTimer", "kReasonRoomNotExist", "kReasonSyncDataError", "kReasonRtcInitError", "kReasonJoinChannelError"}
  }

  /** How a status change answers the pending callbacks; `includesLeave` says whether the leave slot is answered too. */
  datatype Resolution = Resolution(code: int, message: string, includesLeave: bool)

  function StatusResolution(status: MeetingStatus, errorCode: int, errorMessage: string): (r: Option<Resolution>)
  {
    if status == ConnectFailed && errorMessage in SilentFailureReasons() then Some(Resolution(Success, "", false))
    else if status == Connected || status == Ended || status == ConnectFailed then
      Some(Resolution(ConvertExtendedCode(errorCode), errorMessage, true))
    else None
  }

  /**
   * Only connected, ended and connect-failed statuses answer callbacks.
   * One of the five listed connect-failure reasons answers start and join
   * with success and an empty message and leaves the leave slot alone;
   * every other answer carries the converted code and the status message.
   */
  lemma StatusResolutionSpec(status: MeetingStatus, errorCode: int, errorMessage: string)
    ensures var r := StatusResolution(status, errorCode, errorMessage);
      && (r.Some? <==> status in {Connected, Ended, ConnectFailed})
      && (r.Some? && !r.value.includesLeave <==> status == ConnectFailed && errorMessage in SilentFailureReasons())
      && (r.Some? && !r.value.includesLeave ==> r.value.code == Success && r.value.message == "")
      && (r.Some? && r.value.includesLeave ==>
            r.value.code == ConvertExtendedCode(errorCode) && r.value.message == errorMessage)
  {
  }

  /** Answering the slot `slot` with `r`, if it holds a callback. */
  function Answer(slot: Option<Callback>, r: Resolution): seq<Reply>
  {
    Notify(slot, r.code, r.message)
  }

  // ----------------------------------------------------------------- class

  /** Work handed to `Invoker::execute`; what it does in the meeting engine is not part of this model. */
  datatype PostedTask =
    | CreateMeetingTask(start: MeetingProtocol.StartRequest)
    | JoinMeetingTask(join: MeetingProtocol.JoinRequest)
    | AnonymousLoginTask(anonymous: MeetingProtocol.JoinRequest, callback: Option<Callback>)
    | LeaveTask(finish: bool, leaveCallback: Option<Callback>)

  class MeetingServiceHandler {
    /** `m_startMeetingCallback`, `m_joinMeetingCallback` and `m_leaveMeetingCallback`. */
    var startSlot: Option<Callback>
    var joinSlot: Option<Callback>
    var leaveSlot: Option<Callback>
    /** Every callback invocation so far, oldest first. */
    var replies: seq<Reply>
    /** Every task posted to the UI thread so far, oldest first. */
    var posted: seq<PostedTask>
    /** Every `leaveMeeting(finish)` call the leave task made on the meeting engine. */
    var engineLeaves: seq<bool>

    constructor ()
      ensures startSlot == None && joinSlot == None && leaveSlot == None
      ensures replies == [] && posted == [] && engineLeaves == []
    {
      startSlot, joinSlot, leaveSlot := None, None, None;
      replies, posted, engineLeaves := [], [], [];
    }

    /**
     * `onStartMeeting`. A second start while one is pending gets "Frequent
     * operation" and leaves the slot as it was; otherwise the request is
     * answered as `StartOutcome` says, and only a request that proceeds is
     * stored and posted.
     */
    method OnStartMeeting(r: MeetingProtocol.StartRequest, cb: Option<Callback>,
                          roomStatus: MeetingStatus, personalRoomId: string) returns (result: bool)
      modifies this
      ensures joinSlot == old(joinSlot) && leaveSlot == old(leaveSlot) && engineLeaves == old(engineLeaves)
      ensures old(startSlot).Some? ==>
        && !result && startSlot == old(startSlot) && posted == old(posted)
        && replies == old(replies) + Notify(cb, Failed, FrequentOperation)
      ensures old(startSlot).None? ==> match StartOutcome(r, roomStatus, personalRoomId)
        case Proceed =>
          result && startSlot == cb && replies == old(replies) && posted == old(posted) + [CreateMeetingTask(r)]
        case Refused(code, message, returned) =>
          && result == returned && startSlot == None && posted == old(posted)
          && replies == old(replies) + Notify(cb, code, message)
    {
      if startSlot.Some? {
        replies := replies + Notify(cb, Failed, FrequentOperation);
        return false;
      }
      var errors := CollectStartErrors(r);
      if errors != [] {
        if cb.Some? {
          var message := BuildInvalidParamsMessage(errors);
          replies := replies + [Reply(cb.value, ParamError, message)];
        }
        return false;
      }
      if roomStatus != Idle {
        replies := replies + Notify(cb, AlreadyInMeeting, LastMeetingNotEnded);
        return true;
      }
      if r.param.meetingId != [] && r.param.meetingId != personalRoomId {
        replies := replies + Notify(cb, ParamError, PersonalIdOnly);
        return false;
      }
      startSlot := cb;
      posted := posted + [CreateMeetingTask(r)];
      return true;
    }

    /**
     * `joinMeeting`, which `onJoinMeeting` calls as it is: the same slot
     * guard, the menu checks without the password rule, and the idle check.
     */
    method JoinMeeting(r: MeetingProtocol.JoinRequest, cb: Option<Callback>, roomStatus: MeetingStatus) returns (result: bool)
      modifies this
      ensures startSlot == old(startSlot) && leaveSlot == old(leaveSlot) && engineLeaves == old(engineLeaves)
      ensures old(joinSlot).Some? ==>
        && !result && joinSlot == old(joinSlot) && posted == old(posted)
        && replies == old(replies) + Notify(cb, Failed, FrequentOperation)
      ensures old(joinSlot).None? ==> match JoinOutcome(r, roomStatus)
        case Proceed =>
          result && joinSlot == cb && replies == old(replies) && posted == old(posted) + [JoinMeetingTask(r)]
        case Refused(code, message, returned) =>
          && result == returned && joinSlot == None && posted == old(posted)
          && replies == old(replies) + Notify(cb, code, message)
    {
      if joinSlot.Some? {
        replies := replies + Notify(cb, Failed, FrequentOperation);
        return false;
      }
      var errors := CollectMenuErrors(r.options.fullMoreMenuItems, r.options.fullToolbarMenuItems);
      if errors != [] {
        if cb.Some? {
          var message := BuildInvalidParamsMessage(errors);
          replies := replies + [Reply(cb.value, ParamError, message)];
        }
        return false;
      }
      if roomStatus != Idle {
        replies := replies + Notify(cb, AlreadyInMeeting, LastMeetingNotEnded);
        return true;
      }
      joinSlot := cb;
      posted := posted + [JoinMeetingTask(r)];
      return true;
    }

    /** `onAnonymousJoinMeeting`: posts the anonymous login and answers true at once. */
    method OnAnonymousJoinMeeting(r: MeetingProtocol.JoinRequest, cb: Option<Callback>) returns (result: bool)
      modifies this
      ensures result
      ensures startSlot == old(startSlot) && joinSlot == old(joinSlot) && leaveSlot == old(leaveSlot)
      ensures replies == old(replies) && engineLeaves == old(engineLeaves)
      ensures posted == old(posted) + [AnonymousLoginTask(r, cb)]
    {
      posted := posted + [AnonymousLoginTask(r, cb)];
      return true;
    }

    /**
     * The anonymous login's completion: code 0 runs `joinMeeting` with the
     * original request, any other code is passed to the callback as it is.
     */
    method AnonymousLoginFinished(r: MeetingProtocol.JoinRequest, cb: Option<Callback>, code: int, message: string,
                                  roomStatus: MeetingStatus)
      modifies this
      ensures code != 0 ==>
        && startSlot == old(startSlot) && joinSlot == old(joinSlot) && leaveSlot == old(leaveSlot)
        && posted == old(posted) && engineLeaves == old(engineLeaves)
        && replies == old(replies) + Notify(cb, code, message)
      ensures code == 0 ==>
        startSlot == old(startSlot) && leaveSlot == old(leaveSlot) && engineLeaves == old(engineLeaves)
      ensures code == 0 && old(joinSlot).Some? ==>
        && joinSlot == old(joinSlot) && posted == old(posted)
        && replies == old(replies) + Notify(cb, Failed, FrequentOperation)
      ensures code == 0 && old(joinSlot).None? ==> match JoinOutcome(r, roomStatus)
        case Proceed =>
          joinSlot == cb && replies == old(replies) && posted == old(posted) + [JoinMeetingTask(r)]
        case Refused(refusal, reason, _) =>
          && joinSlot == None && posted == old(posted)
          && replies == old(replies) + Notify(cb, refusal, reason)
    {
      if code == 0 {
        var _ := JoinMeeting(r, cb, roomStatus);
      } else {
        replies := replies + Notify(cb, code, message);
      }
    }

    /** `onLeaveMeeting`: the same slot guard, then the callback is stored and the leave task posted. */
    method OnLeaveMeeting(finish: bool, cb: Option<Callback>) returns (result: bool)
      modifies this
      ensures startSlot == old(startSlot) && joinSlot == old(joinSlot) && engineLeaves == old(engineLeaves)
      ensures old(leaveSlot).Some? ==>
        && !result && leaveSlot == old(leaveSlot) && posted == old(posted)
        && replies == old(replies) + Notify(cb, Failed, FrequentOperation)
      ensures old(leaveSlot).None? ==>
        && result && leaveSlot == cb && replies == old(replies)
        && posted == old(posted) + [LeaveTask(finish, cb)]
    {
      if leaveSlot.Some? {
        replies := replies + Notify(cb, Failed, FrequentOperation);
        return false;
      }
      leaveSlot := cb;
      posted := posted + [LeaveTask(finish, cb)];
      return true;
    }

    /**
     * The posted leave task when it runs: a failed check answers the
     * captured callback with `Failed` and empties the leave slot; otherwise
     * the engine is asked to leave and the slot waits for the status change.
     */
    method RunLeaveTask(finish: bool, cb: Option<Callback>, loggedIn: bool, roomStatus: MeetingStatus, isHost: bool)
      modifies this
      ensures startSlot == old(startSlot) && joinSlot == old(joinSlot) && posted == old(posted)
      ensures match LeaveTaskFailure(finish, loggedIn, roomStatus, isHost)
        case Some(message) =>
          && leaveSlot == None && engineLeaves == old(engineLeaves)
          && replies == old(replies) + Notify(cb, Failed, message)
        case None =>
          leaveSlot == old(leaveSlot) && replies == old(replies) && engineLeaves == old(engineLeaves) + [finish]
    {
      if finish {
        if !loggedIn {
          replies := replies + Notify(cb, Failed, NotLoggedIn);
          leaveSlot := None;
          return;
        }
        if roomStatus != Connected && roomStatus != Reconnected {
          replies := replies + Notify(cb, Failed, MeetingNotStarted);
          leaveSlot := None;
          return;
        }
        if !isHost {
          replies := replies + Notify(cb, Failed, NoPermission);
          leaveSlot := None;
          return;
        }
        engineLeaves := engineLeaves + [true];
      } else {
        if roomStatus != Connected && roomStatus != Reconnected {
          replies := replies + Notify(cb, Failed, MeetingNotStarted);
          leaveSlot := None;
          return;
        }
        engineLeaves := engineLeaves + [false];
      }
    }

    /**
     * `onMeetingStatusChanged`: a resolving status answers each occupied
     * slot once, in the order start, join, leave, and empties it; the leave
     * slot is skipped for the silent connect-failure reasons.
     */
    method OnMeetingStatusChanged(status: MeetingStatus, errorCode: int, errorMessage: string)
      modifies this
      ensures posted == old(posted) && engineLeaves == old(engineLeaves)
      ensures StatusResolution(status, errorCode, errorMessage).None? ==>
        && startSlot == old(startSlot) && joinSlot == old(joinSlot) && leaveSlot == old(leaveSlot)
        && replies == old(replies)
      ensures StatusResolution(status, errorCode, errorMessage).Some? ==>
        var r := StatusResolution(status, errorCode, errorMessage).value;
        && startSlot == None && joinSlot == None
        && leaveSlot == (if r.includesLeave then None else old(leaveSlot))
        && replies == old(replies) + Answer(old(startSlot), r) + Answer(old(joinSlot), r)
                     + (if r.includesLeave then Answer(old(leaveSlot), r) else [])
    {
      ghost var res := StatusResolution(status, errorCode, errorMessage);
      ghost var before := replies;
      if status == ConnectFailed && errorMessage in SilentFailureReasons() {
        var code := Success;
        if startSlot.Some? {
          replies := replies + [Reply(startSlot.value, code, "")];
          startSlot := None;
        }
        assert replies == before + Answer(old(startSlot), res.value);
        ghost var afterStart := replies;
        if joinSlot.Some? {
          replies := replies + [Reply(joinSlot.value, code, "")];
          joinSlot := None;
        }
        assert replies == afterStart + Answer(old(joinSlot), res.value);
        return;
      }
      var code;
      match status {
        case Connected => code := ConvertExtendedCode(errorCode);
        case Ended => code := ConvertExtendedCode(errorCode);
        case ConnectFailed => code := ConvertExtendedCode(errorCode);
        case _ => return;
      }
      assert res == Some(Resolution(code, errorMessage, true));
      if startSlot.Some? {
        replies := replies + [Reply(startSlot.value, code, errorMessage)];
        startSlot := None;
      }
      assert replies == before + Answer(old(startSlot), res.value);
      ghost var afterStart := replies;
      if joinSlot.Some? {
        replies := replies + [Reply(joinSlot.value, code, errorMessage)];
        joinSlot := None;
      }
      assert replies == afterStart + Answer(old(joinSlot), res.value);
      ghost var afterJoin := replies;
      if leaveSlot.Some? {
        replies := replies + [Reply(leaveSlot.value, code, errorMessage)];
        leaveSlot := None;
      }
      assert replies == afterJoin + Answer(old(leaveSlot), res.value);
    }
  }
}
