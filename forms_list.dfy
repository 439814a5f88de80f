/**
 * The `listForms` query of convex/forms.ts: which forms a caller sees, the
 * optional status, date and text filters, and the newest-first order.
 */
module FormsList {
  import opened Common
  import opened Tables
  import opened Sorting
  import opened Schema
  import opened Users

  /**
   * The query's optional arguments. JavaScript truthiness decides whether a
   * filter applies: a date of 0 and an empty search text apply no filter.
   */
  datatype ListArgs = ListArgs(
    status: Option<FormStatus>,
    employeeId: Option<Id>,
    dateFrom: Option<int>,
    dateTo: Option<int>,
    searchQuery: Option<string>)

  /**
   * The rows read before the filters: an employee's own forms, the chosen
   * employee's forms for an admin who names one, every form otherwise; never
   * a soft-deleted one.
   */
  predicate InScope(role: Role, userId: Id, args: ListArgs, f: Form)
  {
    !f.isDeleted
    && if role == Employee then f.employeeId == userId
       else if args.employeeId.Some? && role == Admin then f.employeeId == args.employeeId.value
       else true
  }

  /** `s.toLowerCase().includes(q.toLowerCase())`. */
  predicate ContainsIgnoringCase(s: string, q: string)
  {
    Includes(ToLower(s), ToLower(q))
  }

  /** The text search: reference id, vehicle number or shipper name contains the query, ignoring case. */
  predicate MatchesSearch(f: Form, q: string)
  {
    ContainsIgnoringCase(f.refId, q)
    || (f.transportDetails.Some? && ContainsIgnoringCase(f.transportDetails.value.vehicleNumber, q))
    || (f.bookingDetails.shipperName.Some? && ContainsIgnoringCase(f.bookingDetails.shipperName.value, q))
  }

  /** The four optional filters, each applied only when its argument is truthy. */
  predicate PassesFilters(args: ListArgs, f: Form)
  {
    (args.status.Some? ==> f.status == args.status.value)
    && (args.dateFrom.Some? && args.dateFrom.value != 0 ==> f.createdAt >= args.dateFrom.value)
    && (args.dateTo.Some? && args.dateTo.value != 0 ==> f.createdAt <= args.dateTo.value)
    && (args.searchQuery.Some? && args.searchQuery.value != "" ==> MatchesSearch(f, args.searchQuery.value))
  }

  predicate Listed(role: Role, userId: Id, args: ListArgs, f: Form)
  {
    InScope(role, userId, args, f) && PassesFilters(args, f)
  }

  function CreatedAt(row: Row<Form>): int
  {
    row.doc.createdAt
  }

  /**
   * `listForms`: signed in and with an active role, the listed rows in
   * creation order, then sorted by `createdAt`, newest first.
   */
  function ListForms(roles: seq<Row<UserRole>>, forms: seq<Row<Form>>, caller: Option<Id>, args: ListArgs)
    : (r: Result<seq<Row<Form>>, Error>)
    ensures r.Ok? <==> caller.Some? && ActiveRole(roles, caller.value).Some?
    ensures caller.None? ==> r == Err(NotAuthenticated)
    ensures caller.Some? && ActiveRole(roles, caller.value).None? ==> r == Err(NoRoleAssigned)
    ensures r.Ok? ==> |r.value| <= |forms|
  {
    if caller.None? then Err(NotAuthenticated)
    else match ActiveRole(roles, caller.value)
      case None => Err(NoRoleAssigned)
      case Some(u) => Ok(SortDesc(Where(forms, f => Listed(u.role, caller.value, args, f)), CreatedAt))
  }

  /** Every row returned is a stored form that is in the caller's scope and passes every filter. */
  lemma ListFormsSound(roles: seq<Row<UserRole>>, forms: seq<Row<Form>>, caller: Option<Id>, args: ListArgs, i: nat)
    requires ListForms(roles, forms, caller, args).Ok? && i < |ListForms(roles, forms, caller, args).value|
    ensures var row := ListForms(roles, forms, caller, args).value[i];
      var role := ActiveRole(roles, caller.value).value.role;
      && row in forms
      && !row.doc.isDeleted
      && (role == Employee ==> row.doc.employeeId == caller.value)
      && (role == Admin && args.employeeId.Some? ==> row.doc.employeeId == args.employeeId.value)
      && (args.status.Some? ==> row.doc.status == args.status.value)
      && (args.dateFrom.Some? && args.dateFrom.value != 0 ==> args.dateFrom.value <= row.doc.createdAt)
      && (args.dateTo.Some? && args.dateTo.value != 0 ==> row.doc.createdAt <= args.dateTo.value)
      && (args.searchQuery.Some? && args.searchQuery.value != "" ==> MatchesSearch(row.doc, args.searchQuery.value))
  {
    var u := ActiveRole(roles, caller.value).value;
    var selected := Where(forms, f => Listed(u.role, caller.value, args, f));
    SortDescMembers(selected, CreatedAt);
  }

  /** Every stored form in scope that passes the filters is returned. */
  lemma ListFormsComplete(roles: seq<Row<UserRole>>, forms: seq<Row<Form>>, caller: Option<Id>, args: ListArgs, i: nat)
    requires ListForms(roles, forms, caller, args).Ok? && i < |forms|
    requires Listed(ActiveRole(roles, caller.value).value.role, caller.value, args, forms[i].doc)
    ensures forms[i] in ListForms(roles, forms, caller, args).value
  {
    var u := ActiveRole(roles, caller.value).value;
    var selected := Where(forms, f => Listed(u.role, caller.value, args, f));
    SortDescMembers(selected, CreatedAt);
  }

  /** The list is ordered by `createdAt`, newest first. */
  lemma ListFormsSorted(roles: seq<Row<UserRole>>, forms: seq<Row<Form>>, caller: Option<Id>, args: ListArgs)
    requires ListForms(roles, forms, caller, args).Ok?
    ensures SortedDesc(ListForms(roles, forms, caller, args).value, CreatedAt)
  {
    var u := ActiveRole(roles, caller.value).value;
    SortDescSorted(Where(forms, f => Listed(u.role, caller.value, args, f)), CreatedAt);
  }

  /** Forms created at the same instant keep their creation order. */
  lemma ListFormsTiesInCreationOrder(roles: seq<Row<UserRole>>, forms: seq<Row<Form>>, caller: Option<Id>,
                                     args: ListArgs, t: int)
    requires ListForms(roles, forms, caller, args).Ok?
    ensures var u := ActiveRole(roles, caller.value).value;
      Filter(ListForms(roles, forms, caller, args).value, HasKey(CreatedAt, t))
      == Filter(Where(forms, f => Listed(u.role, caller.value, args, f)), HasKey(CreatedAt, t))
  {
    var u := ActiveRole(roles, caller.value).value;
    SortDescStable(Where(forms, f => Listed(u.role, caller.value, args, f)), CreatedAt, t);
  }

  /** A case-sensitive substring is also found ignoring case. */
  lemma {:induction false} IncludesLower(s: string, q: string)
    requires Includes(s, q)
    ensures Includes(ToLower(s), ToLower(q))
  {
    if StartsWith(s, q) {
      assert ToLower(s)[..|q|] == ToLower(q);
    } else {
      IncludesLower(s[1..], q);
      assert ToLower(s)[1..] == ToLower(s[1..]);
    }
  }

  /** Searching for any piece of a form's reference id finds the form. */
  lemma SearchFindsRefId(f: Form, q: string)
    requires Includes(f.refId, q)
    ensures MatchesSearch(f, q)
  {
    IncludesLower(f.refId, q);
  }
}
