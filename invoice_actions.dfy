/** The server actions `createInvoice` and `updateInvoice`: parse the form, normalise
    the amount (and, on create, the date), write the `invoices` table, revalidate the
    invoices listing and redirect to it. */
module InvoiceActions {
  import opened Wrappers
  import opened Strings
  import opened InvoiceSchema
  import AuthConfig

  /** The listing both actions revalidate and then redirect to. */
  const InvoicesPath: string := "/dashboard/invoices"

  /** Row key of the `invoices` table (a UUID assigned by the database). */
  type Id = string

  /** A row of `invoices(id, customer_id, amount, status, date)`, keyed by its id. */
  datatype Row = Row(customerId: string, amount: real, status: Status, date: string)

  /** The SQL statements the actions issue, with their bound parameters. */
  datatype Statement =
    | Insert(customerId: string, amount: real, status: Status, date: string)
    | Update(id: Id, customerId: string, amount: real, status: Status)

  /** Observable effects, in the order they happen: a completed write, a
      `revalidatePath(path)` and a `redirect(path)`. */
  datatype Effect = Write(stmt: Statement) | Revalidate(path: string) | Redirect(path: string)

  /** How an action ends: by `redirect` (a non-local exit), by the parse throwing its
      validation error, or by the SQL call throwing. */
  datatype Outcome = Redirected(path: string) | ValidationFailed(issues: seq<string>) | DatabaseFailed

  /** `amount * 100`, in exact arithmetic: no rounding, so dividing back gives the amount. */
  function Cents(amount: real): (c: real)
    ensures c / 100.0 == amount
  {
    amount * 100.0
  }

  /** `new Date().toISOString().split('T')[0]`, for the timestamp `iso`: the part of it
      before the first 'T' (all of it if there is none). */
  function DateOf(iso: string): (d: string)
    ensures d <= iso && 'T' !in d
    ensures |d| < |iso| ==> iso[|d|] == 'T'
  {
    Split(iso, 'T')[0]
  }

  predicate IsDigit(c: char) {
    '0' <= c <= '9'
  }

  /** The shape `YYYY-MM-DDTHH:mm:ss.sssZ` that `toISOString` produces for years 0 to 9999. */
  predicate IsIsoTimestamp(s: string) {
    |s| == 24
    && s[4] == '-' && s[7] == '-' && s[10] == 'T' && s[13] == ':' && s[16] == ':'
    && s[19] == '.' && s[23] == 'Z'
    && forall i :: 0 <= i < 24 && i !in {4, 7, 10, 13, 16, 19, 23} ==> IsDigit(s[i])
  }

  /** For a well-formed timestamp the stamped date is its first ten characters. */
  lemma DateOfIsoTimestamp(iso: string)
    requires IsIsoTimestamp(iso)
    ensures DateOf(iso) == iso[..10]
    ensures |DateOf(iso)| == 10
  {
  }

  /** `INSERT INTO invoices ...` with the id the database generates: fails (throws) if
      that id is already taken, and otherwise adds exactly that row. */
  function InsertRow(rows: map<Id, Row>, id: Id, row: Row): (r: Option<map<Id, Row>>)
    ensures r.None? <==> id in rows
    ensures r.Some? ==> r.value.Keys == rows.Keys + {id} && r.value[id] == row
                        && forall k :: k in rows ==> r.value[k] == rows[k]
  {
    if id in rows then None else Some(rows[id := row])
  }

  /** `UPDATE invoices SET customer_id, amount, status WHERE id = id`: the SET applied to
      every row the WHERE matches. */
  function UpdateRows(rows: map<Id, Row>, id: Id, customerId: string, amount: real, status: Status)
    : (r: map<Id, Row>)
    ensures r.Keys == rows.Keys
    ensures id in rows ==> r[id] == Row(customerId, amount, status, rows[id].date)
    ensures forall k :: k in rows && k != id ==> r[k] == rows[k]
    ensures id !in rows ==> r == rows
  {
    map k | k in rows :: if k == id then rows[k].(customerId := customerId, amount := amount, status := status)
                         else rows[k]
  }

  /** The effects of one successful action, in order. */
  function Trace(stmt: Statement): seq<Effect> {
    [Write(stmt), Revalidate(InvoicesPath), Redirect(InvoicesPath)]
  }

  /** An effect log made of whole successful actions: write, revalidate, redirect, again and again. */
  ghost predicate Completed(log: seq<Effect>)
    decreases |log|
  {
    log == [] || (|log| >= 3 && log[0].Write? && log[..3] == Trace(log[0].stmt) && Completed(log[3..]))
  }

  /** Appending one successful action keeps a log complete. */
  lemma {:induction false} CompletedAppend(log: seq<Effect>, stmt: Statement)
    requires Completed(log)
    ensures Completed(log + Trace(stmt))
    decreases |log|
  {
    if log == [] {
      assert (log + Trace(stmt))[3..] == [];
    } else {
      CompletedAppend(log[3..], stmt);
      assert (log + Trace(stmt))[..3] == log[..3];
      assert (log + Trace(stmt))[3..] == log[3..] + Trace(stmt);
    }
  }

  /** In a complete log every write is followed at once by the revalidation of the
      listing and then by the redirect to it, and the last effect is a redirect. */
  lemma {:induction false} CompletedOrder(log: seq<Effect>)
    requires Completed(log)
    ensures forall i :: 0 <= i < |log| && log[i].Write? ==>
              i + 2 < |log| && log[i + 1] == Revalidate(InvoicesPath) && log[i + 2] == Redirect(InvoicesPath)
    ensures log != [] ==> log[|log| - 1] == Redirect(InvoicesPath)
    decreases |log|
  {
    if log != [] {
      CompletedOrder(log[3..]);
      assert log[..3] == Trace(log[0].stmt);
      assert log[1] == Revalidate(InvoicesPath) && log[2] == Redirect(InvoicesPath);
      forall i | 0 <= i < |log| && log[i].Write?
        ensures i + 2 < |log| && log[i + 1] == Revalidate(InvoicesPath) && log[i + 2] == Redirect(InvoicesPath)
      {
        if i >= 3 {
          assert log[3..][i - 3] == log[i];
          assert log[3..][i - 2] == log[i + 1];
          assert log[3..][i - 1] == log[i + 2];
        } else {
          assert i == 0;
        }
      }
      if |log| > 3 {
        assert log[3..][|log| - 4] == log[|log| - 1];
      }
    }
  }

  /** The redirect target is inside the protected area, so following it never loops:
      a signed-in user is let in, a signed-out one is sent to sign in. */
  lemma RedirectTargetProtected(auth: Option<AuthConfig.Session>, origin: string, search: string)
    ensures AuthConfig.IsOnDashboard(InvoicesPath)
    ensures AuthConfig.Authorized(auth, AuthConfig.Request(AuthConfig.Url(origin, InvoicesPath, search)))
            == if AuthConfig.IsLoggedIn(auth) then AuthConfig.Allow else AuthConfig.Deny
  {
  }

  /** The `invoices` table as the actions see it, with the log of what they did. */
  class InvoiceTable {
    var rows: map<Id, Row>
    var log: seq<Effect>

    ghost predicate Valid()
      reads this
    {
      Completed(log)
    }

    constructor (initial: map<Id, Row>)
      ensures Valid() && rows == initial && log == []
    {
      rows := initial;
      log := [];
    }

    /** Run one statement against the table. `newId` is the id the database generates
        for an insert (an update does not use it). The database may refuse a statement
        for reasons the model does not see (`accepted` false); an insert also fails on a
        taken id. A refused statement changes nothing; an executed one is logged. */
    method Execute(stmt: Statement, newId: Id, accepted: bool) returns (ok: bool)
      modifies this
      ensures ok == (accepted && (stmt.Insert? ==> newId !in old(rows)))
      ensures !ok ==> rows == old(rows) && log == old(log)
      ensures ok && stmt.Insert? ==>
                rows == InsertRow(old(rows), newId, Row(stmt.customerId, stmt.amount, stmt.status, stmt.date)).value
      ensures ok && stmt.Update? ==>
                rows == UpdateRows(old(rows), stmt.id, stmt.customerId, stmt.amount, stmt.status)
      ensures ok ==> log == old(log) + [Write(stmt)]
    {
      if !accepted {
        return false;
      }
      match stmt {
        case Insert(customerId, amount, status, date) =>
          var r := InsertRow(rows, newId, Row(customerId, amount, status, date));
          if r.None? {
            return false;
          }
          rows := r.value;
        case Update(id, customerId, amount, status) =>
          rows := UpdateRows(rows, id, customerId, amount, status);
      }
      log := log + [Write(stmt)];
      ok := true;
    }

    /** `revalidatePath(path)`. */
    method RevalidatePath(path: string)
      modifies this
      ensures rows == old(rows) && log == old(log) + [Revalidate(path)]
    {
      log := log + [Revalidate(path)];
    }

    /** `redirect(path)`: the last thing an action does. */
    method RedirectTo(path: string) returns (outcome: Outcome)
      modifies this
      ensures outcome == Redirected(path)
      ensures rows == old(rows) && log == old(log) + [Redirect(path)]
    {
      log := log + [Redirect(path)];
      outcome := Redirected(path);
    }

    /** `createInvoice(formData)`, at time `now` (an ISO timestamp), with `newId` the id
        the database assigns and `accepted` whether it accepts the insert. */
    method CreateInvoice(form: FormData, coerce: Coercion, now: string, newId: Id, accepted: bool)
      returns (outcome: Outcome)
      requires Valid() && NumberCoercion(coerce)
      modifies this
      ensures Valid()
      ensures ParseForm(form, coerce).Failure? ==>
                outcome == ValidationFailed(ParseForm(form, coerce).error)
                && rows == old(rows) && log == old(log)
      ensures ParseForm(form, coerce).Success? ==>
                var f := ParseForm(form, coerce).value;
                var stmt := Insert(f.customerId, Cents(f.amount), f.status, DateOf(now));
                if accepted && newId !in old(rows) then
                  outcome == Redirected(InvoicesPath)
                  && rows == old(rows)[newId := Row(f.customerId, Cents(f.amount), f.status, DateOf(now))]
                  && log == old(log) + Trace(stmt)
                else
                  outcome == DatabaseFailed && rows == old(rows) && log == old(log)
    {
      var parsed := ParseForm(form, coerce);
      if parsed.Failure? {
        return ValidationFailed(parsed.error);
      }
      var fields := parsed.value;
      var amountInCents := Cents(fields.amount);
      var date := DateOf(now);
      var stmt := Insert(fields.customerId, amountInCents, fields.status, date);
      ghost var log0 := log;
      var ok := Execute(stmt, newId, accepted);
      if !ok {
        return DatabaseFailed;
      }
      RevalidatePath(InvoicesPath);
      outcome := RedirectTo(InvoicesPath);
      assert log == log0 + Trace(stmt);
      CompletedAppend(log0, stmt);
    }

    /** `updateInvoice(id, formData)`, with `accepted` whether the database accepts the update. */
    method UpdateInvoice(id: Id, form: FormData, coerce: Coercion, accepted: bool)
      returns (outcome: Outcome)
      requires Valid() && NumberCoercion(coerce)
      modifies this
      ensures Valid()
      ensures ParseForm(form, coerce).Failure? ==>
                outcome == ValidationFailed(ParseForm(form, coerce).error)
                && rows == old(rows) && log == old(log)
      ensures ParseForm(form, coerce).Success? ==>
                var f := ParseForm(form, coerce).value;
                var stmt := Update(id, f.customerId, Cents(f.amount), f.status);
                if accepted then
                  outcome == Redirected(InvoicesPath)
                  && rows == UpdateRows(old(rows), id, f.customerId, Cents(f.amount), f.status)
                  && log == old(log) + Trace(stmt)
                else
                  outcome == DatabaseFailed && rows == old(rows) && log == old(log)
    {
      var parsed := ParseForm(form, coerce);
      if parsed.Failure? {
        return ValidationFailed(parsed.error);
      }
      var fields := parsed.value;
      var amountInCents := Cents(fields.amount);
      var stmt := Update(id, fields.customerId, amountInCents, fields.status);
      ghost var log0 := log;
      var ok := Execute(stmt, "", accepted);
      if !ok {
        return DatabaseFailed;
      }
      RevalidatePath(InvoicesPath);
      outcome := RedirectTo(InvoicesPath);
      assert log == log0 + Trace(stmt);
      CompletedAppend(log0, stmt);
    }
  }
}
