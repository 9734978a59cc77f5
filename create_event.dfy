/**
  * The organizer's "Create Event" page: the category tree shown in the category
  * picker, the picker's indentation, the ordered checks run on submit, the event
  * body built from the form, and the page state the submit handler drives.
  */
module CreateEvent {
  import opened Common
  import opened Text

  // ---------------------------------------------------------------- categories

  /** `parentCategory`: absent (a root), or a populated parent whose `_id` may be missing. */
  datatype ParentLink = NoParent | ParentRef(id: Option<string>)

  /** A category as the backend sends it; `id` is `_id`. */
  datatype Category = Category(id: string, name: string, isActive: bool, parent: ParentLink)

  /** A category with its organized `subCategories`. */
  datatype CategoryNode = CategoryNode(category: Category, subCategories: seq<CategoryNode>)

  /** The root filter: `!cat.parentCategory && cat.isActive`. */
  predicate IsRoot(c: Category)
  {
    c.parent.NoParent? && c.isActive
  }

  /** The child filter: `cat.isActive && cat.parentCategory?._id?.toString() === parentId?.toString()`. */
  predicate IsChildOf(c: Category, parentId: string)
  {
    c.isActive && c.parent == ParentRef(Some(parentId))
  }

  /** The categories `findChildren(parentId)` keeps, in input order. */
  function ChildrenOf(cats: seq<Category>, parentId: string): (r: seq<Category>)
    ensures forall c :: c in r <==> c in cats && IsChildOf(c, parentId)
    ensures IsSubsequence(r, cats)
  {
    Filter(cats, c => IsChildOf(c, parentId))
  }

  /**
    * `findChildren(parentId)`: every active category whose parent is `parentId`,
    * each with its own children. `fuel` bounds the depth (see `OrganizeCategories`).
    */
  function FindChildren(cats: seq<Category>, parentId: string, fuel: nat): (r: seq<CategoryNode>)
    decreases fuel
  {
    if fuel == 0 then []
    else
      var kids := ChildrenOf(cats, parentId);
      seq(|kids|, i requires 0 <= i < |kids| => CategoryNode(kids[i], FindChildren(cats, kids[i].id, fuel - 1)))
  }

  /**
    * `organizeCategories`: the active roots in input order, each with its subtree.
    * The source recurses until no child is left; here the depth is bounded by the
    * number of categories, which with distinct ids is never reached.
    */
  function OrganizeCategories(cats: seq<Category>): (r: seq<CategoryNode>)
  {
    var roots := Filter(cats, IsRoot);
    seq(|roots|, i requires 0 <= i < |roots| => CategoryNode(roots[i], FindChildren(cats, roots[i].id, |cats|)))
  }

  /** The categories a list of nodes stands for, in order. */
  function Categories(nodes: seq<CategoryNode>): (r: seq<Category>)
    ensures |r| == |nodes|
    ensures forall i :: 0 <= i < |nodes| ==> r[i] == nodes[i].category
  {
    seq(|nodes|, i requires 0 <= i < |nodes| => nodes[i].category)
  }

  /** Every node of the tree is active, and every child names its parent's id as its parent. */
  predicate WellFormed(n: CategoryNode)
    decreases n
  {
    n.category.isActive
    && forall i :: 0 <= i < |n.subCategories| ==>
         n.subCategories[i].category.parent == ParentRef(Some(n.category.id)) && WellFormed(n.subCategories[i])
  }

  /** The top level is exactly the active categories without a parent, in input order. */
  lemma RootsAreActiveParentless(cats: seq<Category>)
    ensures Categories(OrganizeCategories(cats)) == Filter(cats, IsRoot)
    ensures forall c :: c in Categories(OrganizeCategories(cats)) <==> c in cats && c.isActive && c.parent.NoParent?
    ensures IsSubsequence(Categories(OrganizeCategories(cats)), cats)
  {
  }

  /** One level of children is exactly the active categories naming the parent, in input order. */
  lemma ChildrenInInputOrder(cats: seq<Category>, parentId: string, fuel: nat)
    requires fuel > 0
    ensures Categories(FindChildren(cats, parentId, fuel)) == ChildrenOf(cats, parentId)
    ensures IsSubsequence(Categories(FindChildren(cats, parentId, fuel)), cats)
  {
  }

  /** Every subtree `findChildren` builds is well formed and hangs below `parentId`. */
  lemma {:induction false} FindChildrenWellFormed(cats: seq<Category>, parentId: string, fuel: nat)
    ensures forall i :: 0 <= i < |FindChildren(cats, parentId, fuel)| ==>
              FindChildren(cats, parentId, fuel)[i].category.parent == ParentRef(Some(parentId))
              && WellFormed(FindChildren(cats, parentId, fuel)[i])
    decreases fuel
  {
    if fuel > 0 {
      var kids := ChildrenOf(cats, parentId);
      var r := FindChildren(cats, parentId, fuel);
      forall i | 0 <= i < |r|
        ensures r[i].category.parent == ParentRef(Some(parentId)) && WellFormed(r[i])
      {
        assert r[i].category == kids[i] && kids[i] in kids;
        FindChildrenWellFormed(cats, kids[i].id, fuel - 1);
      }
    }
  }

  /** The organized tree is well formed: no inactive category appears at any depth. */
  lemma OrganizedTreeWellFormed(cats: seq<Category>)
    ensures forall i :: 0 <= i < |OrganizeCategories(cats)| ==>
              OrganizeCategories(cats)[i].category.parent.NoParent? && WellFormed(OrganizeCategories(cats)[i])
  {
    var roots := Filter(cats, IsRoot);
    var r := OrganizeCategories(cats);
    forall i | 0 <= i < |r| ensures r[i].category.parent.NoParent? && WellFormed(r[i]) {
      assert roots[i] in roots;
      FindChildrenWellFormed(cats, roots[i].id, |cats|);
    }
  }

  // ---------------------------------------------------------------- the picker

  /** `getPrefix(level)`: nothing at the top level, else indentation, dashes and a space. */
  function GetPrefix(level: nat): string
  {
    if level == 0 then "" else Repeat("  ", level) + Repeat("-", level) + " "
  }

  /** The prefix is `2·level` spaces, `level` dashes and one space: `3·level + 1` characters. */
  lemma PrefixShape(level: nat)
    requires level > 0
    ensures |GetPrefix(level)| == 3 * level + 1
    ensures forall i :: 0 <= i < 2 * level ==> GetPrefix(level)[i] == ' '
    ensures forall i :: 2 * level <= i < 3 * level ==> GetPrefix(level)[i] == '-'
    ensures GetPrefix(level)[3 * level] == ' '
  {
    RepeatUniform("  ", level, ' ');
    RepeatUniform("-", level, '-');
  }

  /** The top level has no prefix. */
  lemma PrefixOfTopLevel()
    ensures GetPrefix(0) == ""
  {
  }

  /** The step of `getIndentationStyle`: `Math.min(level * 4, 16)`. */
  function IndentationStep(level: nat): (n: nat)
    ensures n <= 16
    ensures n == 16 || n == 4 * level
    ensures level <= 4 ==> n == 4 * level
  {
    if level * 4 < 16 then level * 4 else 16
  }

  /** The class name `getIndentationStyle` returns. */
  function IndentationStyle(level: nat): (s: string)
    ensures StartsWith(s, "ml-")
  {
    "ml-" + IntToString(IndentationStep(level))
  }

  /** The class names the step, which never goes past 16. */
  lemma IndentationStyleCapped(level: nat)
    ensures exists n :: 0 <= n <= 16 && IndentationStyle(level) == "ml-" + IntToString(n)
    ensures level >= 4 ==> IndentationStyle(level) == "ml-16"
  {
    var n := IndentationStep(level);
    assert IndentationStyle(level) == "ml-" + IntToString(n);
    if level >= 4 {
      assert IntToString(16) == "16" by {
        assert NatToString(1) == "1";
        assert NatToString(16) == NatToString(1) + [DigitChar(6)];
      }
    }
  }

  // ---------------------------------------------------------------- validation

  /** A date read by `new Date(...)`: a timestamp, or `None` for an Invalid Date. */
  type Date = Option<int>

  /** `a >= b` on Date objects: any comparison with an Invalid Date (NaN) is false. */
  predicate DateAtLeast(a: Date, b: Date)
  {
    a.Some? && b.Some? && a.value >= b.value
  }

  /** `a <= b` on Date objects. */
  predicate DateAtMost(a: Date, b: Date)
  {
    a.Some? && b.Some? && a.value <= b.value
  }

  /** One entry of the `validations` array. */
  datatype Check = Check(condition: bool, message: string)

  /** `validations.find(val => val.condition)?.message`. */
  function FirstFailure(checks: seq<Check>): (r: Option<string>)
    ensures r.Some? <==> exists i :: 0 <= i < |checks| && checks[i].condition
    ensures r.Some? ==> exists i :: 0 <= i < |checks| && checks[i].condition && r.value == checks[i].message
                                    && forall j :: 0 <= j < i ==> !checks[j].condition
  {
    if checks == [] then None
    else if checks[0].condition then Some(checks[0].message)
    else
      var r := FirstFailure(checks[1..]);
      assert forall i :: 1 <= i < |checks| ==> checks[i] == checks[1..][i - 1];
      if r.Some? then
        var k :| 0 <= k < |checks[1..]| && checks[1..][k].condition && r.value == checks[1..][k].message
                  && forall j :: 0 <= j < k ==> !checks[1..][j].condition;
        assert checks[k + 1].condition && forall j :: 0 <= j < k + 1 ==> !checks[j].condition;
        r
      else r
  }

  const CategoryMessage := "Please select a valid category"
  const DeadlineMessage := "Registration deadline must be before event date"
  const FutureMessage := "Event date must be in the future"

  /** The three checks of `handleCreateEvent`, in the order they are listed. */
  function EventChecks(categoryId: string, eventDate: Date, deadline: Date, now: int): seq<Check>
  {
    [ Check(categoryId == "", CategoryMessage),
      Check(DateAtLeast(deadline, eventDate), DeadlineMessage),
      Check(DateAtMost(eventDate, Some(now)), FutureMessage) ]
  }

  /** The message of the first failing check, if any. */
  function ValidateEvent(categoryId: string, eventDate: Date, deadline: Date, now: int): Option<string>
  {
    FirstFailure(EventChecks(categoryId, eventDate, deadline, now))
  }

  /** Only the first failing check is reported: a missing category beats the date checks, and so on. */
  lemma ValidateEventOrder(categoryId: string, eventDate: Date, deadline: Date, now: int)
    ensures categoryId == "" ==> ValidateEvent(categoryId, eventDate, deadline, now) == Some(CategoryMessage)
    ensures categoryId != "" && DateAtLeast(deadline, eventDate) ==>
              ValidateEvent(categoryId, eventDate, deadline, now) == Some(DeadlineMessage)
    ensures categoryId != "" && !DateAtLeast(deadline, eventDate) && DateAtMost(eventDate, Some(now)) ==>
              ValidateEvent(categoryId, eventDate, deadline, now) == Some(FutureMessage)
    ensures ValidateEvent(categoryId, eventDate, deadline, now).None? <==>
              categoryId != "" && !DateAtLeast(deadline, eventDate) && !DateAtMost(eventDate, Some(now))
  {
    var checks := EventChecks(categoryId, eventDate, deadline, now);
    assert checks[1..] == [checks[1], checks[2]];
    assert checks[1..][1..] == [checks[2]];
    assert FirstFailure([checks[2]][1..]) == None;
    if ValidateEvent(categoryId, eventDate, deadline, now).None? {
      assert !checks[0].condition && !checks[1].condition && !checks[2].condition;
    }
  }

  /** With readable dates, passing means: a category, a deadline before the event, an event after now. */
  lemma ValidEventDates(categoryId: string, eventDate: int, deadline: int, now: int)
    ensures ValidateEvent(categoryId, Some(eventDate), Some(deadline), now).None?
        <==> categoryId != "" && deadline < eventDate && eventDate > now
  {
    ValidateEventOrder(categoryId, Some(eventDate), Some(deadline), now);
  }

  /** A failed validation always names one of the three messages, never the empty string. */
  lemma ValidateEventMessage(categoryId: string, eventDate: Date, deadline: Date, now: int)
    ensures var r := ValidateEvent(categoryId, eventDate, deadline, now);
      r.Some? ==> r.value in {CategoryMessage, DeadlineMessage, FutureMessage} && r.value != ""
  {
    ValidateEventOrder(categoryId, eventDate, deadline, now);
  }

  // ---------------------------------------------------------------- the event body

  /** `form.tags.value ? form.tags.value.split(",").map(tag => tag.trim()) : []`. */
  function ParseTags(tags: string): (r: seq<string>)
  {
    if tags == "" then []
    else
      var pieces := Split(tags, ',');
      seq(|pieces|, i requires 0 <= i < |pieces| => Trim(pieces[i]))
  }

  /** No tags for an empty field; otherwise one tag per comma-separated piece, trimmed and comma-free. */
  lemma ParseTagsShape(tags: string)
    ensures tags == "" ==> ParseTags(tags) == []
    ensures tags != "" ==> |ParseTags(tags)| == CountChar(tags, ',') + 1
    ensures forall i :: 0 <= i < |ParseTags(tags)| ==>
              ParseTags(tags)[i] == Trim(Split(tags, ',')[i]) && ',' !in ParseTags(tags)[i]
  {
    SplitShape(tags, ',');
    var r := ParseTags(tags);
    forall i | 0 <= i < |r| ensures ',' !in r[i] {
      TrimShape(Split(tags, ',')[i]);
    }
  }

  /** A string without whitespace is its own trim. */
  lemma TrimNoWhitespace(s: string)
    requires forall i :: 0 <= i < |s| ==> !IsWhitespace(s[i])
    ensures Trim(s) == s
  {
  }

  /** Tags typed without spaces come back unchanged when joined with commas. */
  lemma ParseTagsJoin(tags: string)
    requires tags != ""
    requires forall i :: 0 <= i < |tags| ==> !IsWhitespace(tags[i])
    ensures Join(ParseTags(tags), ',') == tags
  {
    var pieces := Split(tags, ',');
    forall i | 0 <= i < |pieces| ensures Trim(pieces[i]) == pieces[i] {
      forall c | c in pieces[i] ensures !IsWhitespace(c) {
        JoinSplit(tags, ',');
        JoinContains(pieces, ',', i, c);
        var k :| 0 <= k < |tags| && tags[k] == c;
      }
    }
    assert ParseTags(tags) == pieces;
    JoinSplit(tags, ',');
  }

  /** A character of a piece is a character of the join. */
  lemma {:induction false} JoinContains(parts: seq<string>, sep: char, i: nat, c: char)
    requires i < |parts| && c in parts[i]
    ensures c in Join(parts, sep)
    decreases |parts|
  {
    if |parts| > 1 && i > 0 {
      JoinContains(parts[1..], sep, i - 1, c);
    }
  }

  /** `Number(value)` for the numeric inputs: blank reads as 0, otherwise a decimal integer or NaN. */
  function NumberValue(s: string): Option<int>
  {
    var t := Trim(s);
    if t == "" then Some(0) else ParseInt(t)
  }

  /** The fields of the create form that the handler reads. */
  datatype EventForm = EventForm(
    eventName: string,
    description: string,
    eventDate: string,
    parsedEventDate: Date,
    registrationDeadline: string,
    parsedDeadline: Date,
    time: string,
    location: string,
    price: string,
    categoryId: string,
    totalSlots: string,
    tags: string,
    isPublic: Option<bool>,
    hasImage: bool)

  /** The `eventData` body posted to `/events/create`; a number that does not parse is `None` (NaN). */
  datatype EventData = EventData(
    eventName: string,
    description: string,
    eventDate: string,
    registrationDeadline: string,
    time: string,
    location: string,
    price: Option<int>,
    category: string,
    totalSlots: Option<int>,
    orgId: string,
    tags: seq<string>,
    isPublic: bool)

  /** The body built from the form once the checks pass. */
  function BuildEventData(f: EventForm, orgId: string): (d: EventData)
    ensures d.eventName == Trim(f.eventName) && d.description == Trim(f.description) && d.location == Trim(f.location)
    ensures d.tags == ParseTags(f.tags) && d.category == f.categoryId && d.orgId == orgId
    ensures d.isPublic <==> f.isPublic == Some(true)
  {
    EventData(Trim(f.eventName), Trim(f.description), f.eventDate, f.registrationDeadline, f.time,
              Trim(f.location), NumberValue(f.price), f.categoryId, NumberValue(f.totalSlots), orgId,
              ParseTags(f.tags), if f.isPublic.Some? then f.isPublic.value else false)
  }

  // ---------------------------------------------------------------- the page

  /** A thrown error, as the handler's `catch` reads it. */
  datatype Failure = Failure(responseError: Option<string>, responseMessage: Option<string>, message: Option<string>)

  /** An `Error` raised by the handler itself (no response attached). */
  function LocalFailure(message: string): Failure
  {
    Failure(None, None, Some(message))
  }

  /** `err.response?.data?.error || err.response?.data?.message || err.message || "Failed to create event"`. */
  function FailureText(e: Failure): (t: string)
    ensures e.responseError.Some? && e.responseError.value != "" ==> t == e.responseError.value
  {
    Or(e.responseError, Or(e.responseMessage, Or(e.message, "Failed to create event")))
  }

  /** The handler's own errors surface with their own words; a bare error falls back to the generic text. */
  lemma FailureTextPrecedence(e: Failure, m: string)
    ensures m != "" ==> FailureText(LocalFailure(m)) == m
    ensures ((e.responseError.None? || e.responseError.value == "") && e.responseMessage.Some? && e.responseMessage.value != "")
              ==> FailureText(e) == e.responseMessage.value
    ensures FailureText(Failure(None, None, None)) == "Failed to create event"
  {
  }

  const UserMissingMessage := "User data not found. Please try again."
  const ImageUploadMessage := "Failed to upload the event image"
  const InitialLoadMessage := "Failed to load initial data. Please try again."

  /** What the created event's response holds when `response.data` is present. */
  datatype Created = Created(eventId: string, requiresApproval: bool)

  /** How `/events/create` answered: a body (perhaps without data), or a throw. */
  datatype CreateOutcome = Answered(data: Option<Created>) | CreateFailed(failure: Failure)

  /** How `uploadEventImage` ended: a response (success or not, both only logged), or a throw. */
  datatype UploadOutcome = UploadAnswered | UploadThrew

  /** What both initial requests return: `userResponse.data.user?._id` and the category list. */
  datatype InitialData = InitialData(userId: Option<string>, categories: seq<Category>)

  /** The state of the `CreateEvent` component that the handlers drive. */
  class CreateEventPage {
    var organizedCategories: seq<CategoryNode>
    var loading: bool
    var error: string
    var userId: Option<string>
    var showApprovalDialog: bool
    var pendingEvent: Option<string>
    var showCreateForm: bool

    constructor ()
      ensures organizedCategories == [] && !loading && error == "" && userId == None
      ensures !showApprovalDialog && pendingEvent == None && !showCreateForm
    {
      organizedCategories := [];
      loading := false;
      error := "";
      userId := None;
      showApprovalDialog := false;
      pendingEvent := None;
      showCreateForm := false;
    }

    /**
      * `fetchInitialData`: when both requests succeed the user's id is kept and the
      * categories are organized into the picker's tree; otherwise the load error is
      * shown and the page stays without a user, so creating an event is refused.
      */
    method ApplyInitialData(loaded: Option<InitialData>)
      modifies this`organizedCategories, this`error, this`loading, this`userId
      ensures !loading
      ensures loaded.Some? ==> userId == loaded.value.userId && error == old(error)
                               && organizedCategories == OrganizeCategories(loaded.value.categories)
      ensures loaded.None? ==> userId == old(userId) && organizedCategories == old(organizedCategories)
                               && error == InitialLoadMessage
    {
      loading := true;
      match loaded {
        case Some(data) =>
          userId := data.userId;
          organizedCategories := OrganizeCategories(data.categories);
        case None =>
          error := InitialLoadMessage;
      }
      loading := false;
    }

    /** The page knows an organizer: `userData?._id` is truthy. */
    predicate HasUser()
      reads this
    {
      userId.Some? && userId.value != ""
    }

    /** The approval dialog and its pending event are as they were. */
    predicate DialogKept(oldDialog: bool, oldPending: Option<string>)
      reads this
    {
      showApprovalDialog == oldDialog && pendingEvent == oldPending
    }

    /**
      * `handleCreateEvent`: refuse without a loaded user, then run the ordered checks;
      * only then is the event posted. Returns the body that was posted, if any.
      */
    method HandleCreateEvent(form: EventForm, now: int, outcome: CreateOutcome, upload: UploadOutcome)
      returns (sent: Option<EventData>)
      modifies this`loading, this`error, this`showApprovalDialog, this`pendingEvent, this`showCreateForm
      ensures !loading
      ensures !HasUser() ==>
                sent == None && error == UserMissingMessage
                && showCreateForm == old(showCreateForm) && DialogKept(old(showApprovalDialog), old(pendingEvent))
      ensures HasUser() && ValidateEvent(form.categoryId, form.parsedEventDate, form.parsedDeadline, now).Some? ==>
                sent == None && error == ValidateEvent(form.categoryId, form.parsedEventDate, form.parsedDeadline, now).value
                && showCreateForm == old(showCreateForm) && DialogKept(old(showApprovalDialog), old(pendingEvent))
      ensures sent.Some? <==>
                HasUser() && ValidateEvent(form.categoryId, form.parsedEventDate, form.parsedDeadline, now).None?
      ensures sent.Some? ==> sent.value == BuildEventData(form, userId.value)
      ensures sent.Some? ==>
                ShowsOutcome(form.hasImage, outcome, upload, old(showApprovalDialog), old(pendingEvent), old(showCreateForm))
    {
      error := "";
      loading := true;
      if !HasUser() {
        FailureTextPrecedence(LocalFailure(UserMissingMessage), UserMissingMessage);
        error := FailureText(LocalFailure(UserMissingMessage));
        sent := None;
      } else {
        sent := CheckAndPost(form, now, outcome, upload);
      }
      loading := false;
    }

    /** The part of `handleCreateEvent` after the user check: the ordered checks, then the post. */
    method CheckAndPost(form: EventForm, now: int, outcome: CreateOutcome, upload: UploadOutcome)
      returns (sent: Option<EventData>)
      requires HasUser() && error == ""
      modifies this`error, this`showApprovalDialog, this`pendingEvent, this`showCreateForm
      ensures ValidateEvent(form.categoryId, form.parsedEventDate, form.parsedDeadline, now).Some? ==>
                sent == None && error == ValidateEvent(form.categoryId, form.parsedEventDate, form.parsedDeadline, now).value
                && showCreateForm == old(showCreateForm) && DialogKept(old(showApprovalDialog), old(pendingEvent))
      ensures sent.Some? <==> ValidateEvent(form.categoryId, form.parsedEventDate, form.parsedDeadline, now).None?
      ensures sent.Some? ==> sent.value == BuildEventData(form, userId.value)
      ensures sent.Some? ==>
                ShowsOutcome(form.hasImage, outcome, upload, old(showApprovalDialog), old(pendingEvent), old(showCreateForm))
    {
      var failed := ValidateEvent(form.categoryId, form.parsedEventDate, form.parsedDeadline, now);
      if failed.Some? {
        ValidateEventMessage(form.categoryId, form.parsedEventDate, form.parsedDeadline, now);
        FailureTextPrecedence(LocalFailure(failed.value), failed.value);
        error := FailureText(LocalFailure(failed.value));
        sent := None;
      } else {
        sent := Some(BuildEventData(form, userId.value));
        ApplyCreateOutcome(form.hasImage, outcome, upload);
      }
    }

    /**
      * The page after the post: the error of a failed post or of a failed image
      * upload, or the form closed (and, when approval is needed, the dialog opened
      * on the pending event). A response without data changes nothing, and the
      * dialog and pending event change only when approval is needed.
      */
    predicate ShowsOutcome(hasImage: bool, outcome: CreateOutcome, upload: UploadOutcome,
                           oldDialog: bool, oldPending: Option<string>, oldForm: bool)
      reads this
    {
      match outcome
      case CreateFailed(failure) =>
        error == FailureText(failure) && showCreateForm == oldForm && DialogKept(oldDialog, oldPending)
      case Answered(None) =>
        error == "" && showCreateForm == oldForm && DialogKept(oldDialog, oldPending)
      case Answered(Some(created)) =>
        if hasImage && upload.UploadThrew? then
          error == ImageUploadMessage && showCreateForm == oldForm && DialogKept(oldDialog, oldPending)
        else if created.requiresApproval then
          error == "" && !showCreateForm && showApprovalDialog && pendingEvent == Some(created.eventId)
        else
          error == "" && !showCreateForm && DialogKept(oldDialog, oldPending)
    }

    /** The part of `handleCreateEvent` after the post was sent. */
    method ApplyCreateOutcome(hasImage: bool, outcome: CreateOutcome, upload: UploadOutcome)
      requires error == ""
      modifies this`error, this`showApprovalDialog, this`pendingEvent, this`showCreateForm
      ensures ShowsOutcome(hasImage, outcome, upload, old(showApprovalDialog), old(pendingEvent), old(showCreateForm))
    {
      match outcome {
        case CreateFailed(failure) =>
          error := FailureText(failure);
        case Answered(data) =>
          if data.Some? {
            if hasImage && upload.UploadThrew? {
              error := FailureText(LocalFailure(ImageUploadMessage));
            } else if data.value.requiresApproval {
              pendingEvent := Some(data.value.eventId);
              showApprovalDialog := true;
              showCreateForm := false;
            } else {
              showCreateForm := false;
            }
          }
      }
    }

    /** `handleDialogClose`. */
    method HandleDialogClose()
      modifies this`showApprovalDialog
      ensures !showApprovalDialog
    {
      showApprovalDialog := false;
    }
  }
}
