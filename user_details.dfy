/**
 * The customer detail panel: the agent a conversation is assigned to, the
 * default of the "Assign to" drop-down, the presence badge and the optional
 * customer information rows.
 */
module UserDetails {
  import opened Wrappers
  import opened Text
  import opened MockData

  /** `admins[i]` is the first agent in list order whose id is `id`. */
  ghost predicate IsFirstWithId(admins: seq<Admin>, i: int, id: string) {
    0 <= i < |admins| && admins[i].id == id && forall j :: 0 <= j < i ==> admins[j].id != id
  }

  /** `admins.find(admin => admin.id === id)`. */
  function FindAdmin(admins: seq<Admin>, id: string): (found: Option<Admin>)
    ensures found.None? <==> forall a :: a in admins ==> a.id != id
    ensures found.Some? ==> found.value in admins && found.value.id == id
  {
    if admins == [] then None
    else if admins[0].id == id then Some(admins[0])
    else
      assert admins == [admins[0]] + admins[1..];
      FindAdmin(admins[1..], id)
  }

  /** What `find` returns is the first agent with the id, not merely some agent with it. */
  lemma {:induction false} FindAdminIsFirst(admins: seq<Admin>, id: string)
    requires FindAdmin(admins, id).Some?
    ensures exists i :: IsFirstWithId(admins, i, id) && admins[i] == FindAdmin(admins, id).value
  {
    if admins[0].id == id {
      assert IsFirstWithId(admins, 0, id);
    } else {
      FindAdminIsFirst(admins[1..], id);
      var i :| IsFirstWithId(admins[1..], i, id) && admins[1..][i] == FindAdmin(admins, id).value;
      assert IsFirstWithId(admins, i + 1, id);
    }
  }

  /**
   * The agent shown under "Assign to": none when `assignedTo` is missing or
   * empty, otherwise the first agent carrying that id, if any.
   */
  function AssignedAdmin(admins: seq<Admin>, assignedTo: Option<string>): (admin: Option<Admin>)
    ensures assignedTo.None? || assignedTo.value == "" ==> admin.None?
    ensures admin.Some? ==> assignedTo.Some? && admin.value in admins && admin.value.id == assignedTo.value
    ensures assignedTo.Some? && assignedTo.value != "" ==>
              (admin.None? <==> forall a :: a in admins ==> a.id != assignedTo.value)
  {
    if assignedTo.None? || assignedTo.value == "" then None
    else FindAdmin(admins, assignedTo.value)
  }

  /** The drop-down's default: the assigned id when there is a non-empty one, else "unassigned". */
  function AssignSelectDefault(assignedTo: Option<string>): (value: string)
    ensures value != ""
    ensures assignedTo.Some? && assignedTo.value != "" ==> value == assignedTo.value
    ensures assignedTo.None? || assignedTo.value == "" ==> value == "unassigned"
  {
    if assignedTo.Some? && assignedTo.value != "" then assignedTo.value else "unassigned"
  }

  /**
   * The "Assign to" drop-down, an uncontrolled select: `defaultValue` seeds
   * the shown value when the select mounts, and only the user's own pick
   * changes it afterwards.
   */
  class AssignSelect {
    var value: string

    /** Mounting shows the drop-down's default for the current assignment. */
    constructor (assignedTo: Option<string>)
      ensures value == AssignSelectDefault(assignedTo)
    {
      value := AssignSelectDefault(assignedTo);
    }

    /** The user picks "unassigned" or an agent of the table. */
    method Pick(choice: string)
      requires choice == "unassigned" || exists a :: a in MockAdmins && a.id == choice
      modifies this
      ensures value == choice
    {
      value := choice;
    }

    /** A re-render with new props: a mounted select ignores a new `defaultValue`. */
    method Rerender(assignedTo: Option<string>)
      ensures value == old(value)
    {
    }
  }

  /**
   * Switching the selection on a wide viewport, as written: the details panel
   * has no key, so the same select re-renders with the new assignment.
   */
  method SwitchSelectionAsWritten(select: AssignSelect, next: Option<string>) returns (shown: AssignSelect)
    ensures shown == select && shown.value == old(select.value)
  {
    select.Rerender(next);
    shown := select;
  }

  /**
   * Switching the selection with the panel keyed by the conversation id: a
   * different conversation mounts a fresh select, the same one keeps its own.
   */
  method SwitchSelectionKeyed(select: AssignSelect, sameConversation: bool, next: Option<string>)
    returns (shown: AssignSelect)
    ensures sameConversation ==> shown == select && shown.value == old(select.value)
    ensures !sameConversation ==> fresh(shown) && shown.value == AssignSelectDefault(next)
  {
    if sameConversation {
      select.Rerender(next);
      shown := select;
    } else {
      shown := new AssignSelect(next);
    }
  }

  /**
   * From a conversation assigned to admin-1 to an unassigned one: as written
   * the drop-down still shows admin-1 while the agent card is gone; keyed,
   * it shows "unassigned".
   */
  method StaleAssigneeScenario(first: Option<string>, second: Option<string>)
    returns (asWritten: string, keyed: string, secondCard: Option<Admin>)
    requires first == Some("admin-1") && second == None
    ensures asWritten == "admin-1" && asWritten != AssignSelectDefault(second)
    ensures secondCard.None?
    ensures keyed == "unassigned" && keyed == AssignSelectDefault(second)
  {
    var select := new AssignSelect(first);
    var kept := SwitchSelectionAsWritten(select, second);
    asWritten := kept.value;
    secondCard := AssignedAdmin(MockAdmins, second);
    var other := new AssignSelect(first);
    var remounted := SwitchSelectionKeyed(other, false, second);
    keyed := remounted.value;
  }

  /** `s.charAt(0).toUpperCase() + s.slice(1)`. */
  function Capitalise(s: string): (r: string)
    ensures |r| == |s|
    ensures s != "" ==> r[0] == UpperChar(s[0]) && r[1..] == s[1..]
  {
    if s == "" then "" else [UpperChar(s[0])] + s[1..]
  }

  /** The text of the presence badge. */
  function StatusLabel(status: UserStatus): (text: string)
    ensures text == match status
                    case Online => "Online"
                    case Offline => "Offline"
                    case Away => "Away"
  {
    Capitalise(UserStatusText(status))
  }

  /** The colour family of the presence badge and its dot. */
  datatype BadgeColour = Green | Yellow | Gray

  function StatusColour(status: UserStatus): (colour: BadgeColour)
    ensures colour == Green <==> status == Online
    ensures colour == Yellow <==> status == Away
    ensures colour == Gray <==> status !in {Online, Away}
  {
    if status == Online then Green else if status == Away then Yellow else Gray
  }

  /** The kinds of line in the "Customer information" block. */
  datatype InfoKind = Company | Plan | Location | SignedUp | LastActive

  /** The position of each kind of line in the block, top to bottom. */
  function Rank(kind: InfoKind): nat {
    match kind
    case Company => 0
    case Plan => 1
    case Location => 2
    case SignedUp => 3
    case LastActive => 4
  }

  /** One line of the block: its kind and the text it shows. */
  datatype InfoRow = InfoRow(kind: InfoKind, text: string)

  /** The sign-up date every customer shows (a fixed text). */
  const SignedUpText := "May 10, 2023"

  /** A JavaScript-truthy optional string: present and non-empty. */
  predicate Present(field: Option<string>) {
    field.Some? && field.value != ""
  }

  /** The kinds of row that depend on an optional customer field. */
  predicate IsOptionalKind(kind: InfoKind) {
    kind == Company || kind == Plan || kind == Location
  }

  /** The row for one optional field: shown only when the field is present and non-empty. */
  function OptionalRow(kind: InfoKind, field: Option<string>): (rows: seq<InfoRow>)
    ensures forall r :: r in rows <==> Present(field) && r == InfoRow(kind, field.value)
    ensures |rows| == if Present(field) then 1 else 0
  {
    if Present(field) then [InfoRow(kind, field.value)] else []
  }

  /** Each row's kind comes strictly below the kinds of the rows above it. */
  ghost predicate RanksIncrease(rows: seq<InfoRow>) {
    forall i, j :: 0 <= i < j < |rows| ==> Rank(rows[i].kind) < Rank(rows[j].kind)
  }

  /** At most one row, and of the given kind. */
  ghost predicate AtMostOneOf(rows: seq<InfoRow>, kind: InfoKind) {
    |rows| <= 1 && forall i :: 0 <= i < |rows| ==> rows[i].kind == kind
  }

  /** Company, plan and location rows, at most one each, stacked on the two fixed rows, are in rank order. */
  lemma StackedInOrder(company: seq<InfoRow>, plan: seq<InfoRow>, location: seq<InfoRow>, fixed: seq<InfoRow>)
    requires AtMostOneOf(company, Company) && AtMostOneOf(plan, Plan) && AtMostOneOf(location, Location)
    requires |fixed| == 2 && fixed[0].kind == SignedUp && fixed[1].kind == LastActive
    ensures RanksIncrease(company + plan + location + fixed)
  {
    var rows := company + plan + location + fixed;
    forall i, j | 0 <= i < j < |rows|
      ensures Rank(rows[i].kind) < Rank(rows[j].kind)
    {
      RankAt(company, plan, location, fixed, i);
      RankAt(company, plan, location, fixed, j);
    }
  }

  /** The rank of row `i` of the stacked block grows with the piece it comes from. */
  lemma RankAt(company: seq<InfoRow>, plan: seq<InfoRow>, location: seq<InfoRow>, fixed: seq<InfoRow>, i: int)
    requires AtMostOneOf(company, Company) && AtMostOneOf(plan, Plan) && AtMostOneOf(location, Location)
    requires |fixed| == 2 && fixed[0].kind == SignedUp && fixed[1].kind == LastActive
    requires 0 <= i < |company + plan + location + fixed|
    ensures var rows := company + plan + location + fixed;
      var a, b, c := |company|, |company| + |plan|, |company| + |plan| + |location|;
      Rank(rows[i].kind) == if i < a then 0 else if i < b then 1 else if i < c then 2 else 3 + (i - c)
  {
    var rows := company + plan + location + fixed;
    var a, b, c := |company|, |company| + |plan|, |company| + |plan| + |location|;
    if i < a {
      assert rows[i] == company[i];
    } else if i < b {
      assert rows[i] == plan[i - a];
    } else if i < c {
      assert rows[i] == location[i - b];
    } else {
      assert rows[i] == fixed[i - c];
    }
  }

  /**
   * The rows of the information block, top to bottom: company, plan and
   * location each when present and non-empty, then sign-up date and last activity.
   */
  function CustomerInfoRows(user: User): (rows: seq<InfoRow>)
    ensures |rows| == 2 + (if Present(user.company) then 1 else 0)
      + (if Present(user.plan) then 1 else 0) + (if Present(user.location) then 1 else 0)
    ensures rows[|rows| - 2..] == [InfoRow(SignedUp, SignedUpText), InfoRow(LastActive, user.lastActive)]
    ensures forall r :: r in rows && r.kind == Company ==> Present(user.company) && user.company.value == r.text
    ensures forall r :: r in rows && r.kind == Plan ==> Present(user.plan) && user.plan.value == r.text
    ensures forall r :: r in rows && r.kind == Location ==> Present(user.location) && user.location.value == r.text
    ensures Present(user.company) ==> InfoRow(Company, user.company.value) in rows
    ensures Present(user.plan) ==> InfoRow(Plan, user.plan.value) in rows
    ensures Present(user.location) ==> InfoRow(Location, user.location.value) in rows
  {
    InfoBlockShape(user.company, user.plan, user.location, user.lastActive);
    InfoBlockSound(user.company, user.plan, user.location, user.lastActive);
    InfoBlockComplete(user.company, user.plan, user.location, user.lastActive);
    InfoBlock(user.company, user.plan, user.location, user.lastActive)
  }

  /** The block built from the three optional fields and the last-activity text. */
  function InfoBlock(company: Option<string>, plan: Option<string>, location: Option<string>,
                     lastActive: string): seq<InfoRow>
  {
    OptionalRow(Company, company) + OptionalRow(Plan, plan) + OptionalRow(Location, location)
      + [InfoRow(SignedUp, SignedUpText), InfoRow(LastActive, lastActive)]
  }

  /** The block has one row per present field on top of the two fixed rows, which close it. */
  lemma InfoBlockShape(company: Option<string>, plan: Option<string>, location: Option<string>, lastActive: string)
    ensures |InfoBlock(company, plan, location, lastActive)| == 2 + (if Present(company) then 1 else 0)
              + (if Present(plan) then 1 else 0) + (if Present(location) then 1 else 0)
    ensures var rows := InfoBlock(company, plan, location, lastActive);
      rows[|rows| - 2..] == [InfoRow(SignedUp, SignedUpText), InfoRow(LastActive, lastActive)]
  {
    var c, p, l := OptionalRow(Company, company), OptionalRow(Plan, plan), OptionalRow(Location, location);
    BlockShape(c, p, l, [InfoRow(SignedUp, SignedUpText), InfoRow(LastActive, lastActive)]);
  }

  /** Every company, plan or location row of the block shows the present field of its kind. */
  lemma InfoBlockSound(company: Option<string>, plan: Option<string>, location: Option<string>, lastActive: string)
    ensures forall r :: r in InfoBlock(company, plan, location, lastActive) && r.kind == Company ==>
              Present(company) && company.value == r.text
    ensures forall r :: r in InfoBlock(company, plan, location, lastActive) && r.kind == Plan ==>
              Present(plan) && plan.value == r.text
    ensures forall r :: r in InfoBlock(company, plan, location, lastActive) && r.kind == Location ==>
              Present(location) && location.value == r.text
  {
    var c, p, l := OptionalRow(Company, company), OptionalRow(Plan, plan), OptionalRow(Location, location);
    var fixed := [InfoRow(SignedUp, SignedUpText), InfoRow(LastActive, lastActive)];
    forall r: InfoRow | r in c + p + l + fixed && IsOptionalKind(r.kind)
      ensures r.kind == Company ==> Present(company) && company.value == r.text
      ensures r.kind == Plan ==> Present(plan) && plan.value == r.text
      ensures r.kind == Location ==> Present(location) && location.value == r.text
    {
      BlockMember(c, p, l, fixed, r);
      OptionalRowSource(company, plan, location, fixed, r);
    }
  }

  /** Every present optional field has its row in the block. */
  lemma InfoBlockComplete(company: Option<string>, plan: Option<string>, location: Option<string>, lastActive: string)
    ensures Present(company) ==> InfoRow(Company, company.value) in InfoBlock(company, plan, location, lastActive)
    ensures Present(plan) ==> InfoRow(Plan, plan.value) in InfoBlock(company, plan, location, lastActive)
    ensures Present(location) ==> InfoRow(Location, location.value) in InfoBlock(company, plan, location, lastActive)
  {
    var c, p, l := OptionalRow(Company, company), OptionalRow(Plan, plan), OptionalRow(Location, location);
    var fixed := [InfoRow(SignedUp, SignedUpText), InfoRow(LastActive, lastActive)];
    if Present(company) {
      BlockMember(c, p, l, fixed, InfoRow(Company, company.value));
    }
    if Present(plan) {
      BlockMember(c, p, l, fixed, InfoRow(Plan, plan.value));
    }
    if Present(location) {
      BlockMember(c, p, l, fixed, InfoRow(Location, location.value));
    }
  }

  /** An optional-kind row of one of the pieces comes from the present field of its own kind. */
  lemma OptionalRowSource(company: Option<string>, plan: Option<string>, location: Option<string>,
                          fixed: seq<InfoRow>, r: InfoRow)
    requires |fixed| == 2 && fixed[0].kind == SignedUp && fixed[1].kind == LastActive
    requires r in OptionalRow(Company, company) || r in OptionalRow(Plan, plan) || r in OptionalRow(Location, location)
             || r in fixed
    requires IsOptionalKind(r.kind)
    ensures r.kind == Company ==> Present(company) && company.value == r.text
    ensures r.kind == Plan ==> Present(plan) && plan.value == r.text
    ensures r.kind == Location ==> Present(location) && location.value == r.text
  {
    var c, p, l := OptionalRow(Company, company), OptionalRow(Plan, plan), OptionalRow(Location, location);
    if r in c {
      assert r == InfoRow(Company, company.value);
    } else if r in p {
      assert r == InfoRow(Plan, plan.value);
    } else if r in l {
      assert r == InfoRow(Location, location.value);
    }
  }

  /** The stacked block's length is the sum of its pieces', and it ends with the last piece. */
  lemma BlockShape(company: seq<InfoRow>, plan: seq<InfoRow>, location: seq<InfoRow>, fixed: seq<InfoRow>)
    ensures |company + plan + location + fixed| == |company| + |plan| + |location| + |fixed|
    ensures (company + plan + location + fixed)[|company| + |plan| + |location|..] == fixed
  {
    var rows := company + plan + location + fixed;
    assert rows[|company| + |plan| + |location|..] == fixed;
  }

  /** A row is in the stacked block exactly when it is in one of its pieces. */
  lemma BlockMember(company: seq<InfoRow>, plan: seq<InfoRow>, location: seq<InfoRow>, fixed: seq<InfoRow>, r: InfoRow)
    ensures r in company + plan + location + fixed <==> r in company || r in plan || r in location || r in fixed
  {
  }

  /** The block lists company, plan, location, sign-up date and last activity in that order, each at most once. */
  lemma CustomerInfoRowsInOrder(user: User)
    ensures RanksIncrease(CustomerInfoRows(user))
  {
    var company := OptionalRow(Company, user.company);
    var plan := OptionalRow(Plan, user.plan);
    var location := OptionalRow(Location, user.location);
    var fixed := [InfoRow(SignedUp, SignedUpText), InfoRow(LastActive, user.lastActive)];
    StackedInOrder(company, plan, location, fixed);
  }
}
