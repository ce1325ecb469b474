/**
 * The task details page's form logic (frontend/src/pages/TaskDetailsPage.jsx):
 * zero dates cleared on load, the changed-field diff on submit, the payload an
 * administrator or a user sends, and the page state after the update.
 * `JSON.stringify` is a parameter; the requests it sends are values.
 */
module TaskDetailsPage {
  import opened Wrappers
  import opened GoStrings

  /** The JSON values the task's fields hold. */
  datatype Json = Null | Text(text: string) | Number(number: int) | Flag(flag: bool)

  /** A task as the page holds it: field name to value. */
  type Form = map<string, Json>

  /** `JSON.stringify` of a field: absent fields are `undefined`, which equals no string. */
  function Encoded(stringify: Json -> string, f: Form, key: string): Option<string> {
    if key in f then Some(stringify(f[key])) else None
  }

  /** A `stringify` that tells different values apart, as `JSON.stringify` does for these. */
  ghost predicate Faithful(stringify: Json -> string) {
    forall a: Json, b: Json :: stringify(a) == stringify(b) ==> a == b
  }

  const ZeroDatePrefix := "0001-01-01"

  const DateFields := {"testEnvDateUpdate", "checkDate"}

  /** `isZeroDate`: a non-empty string starting with the zero time's date. */
  predicate IsZeroDate(v: Json) {
    v.Text? && v.text != "" && HasPrefix(v.text, ZeroDatePrefix)
  }

  /** The two date fields of a fetched task, with Go's zero time replaced by `null`. */
  function Normalise(data: Form): (n: Form)
    ensures n.Keys == data.Keys
    ensures forall k | k in data :: n[k] == (if k in DateFields && IsZeroDate(data[k]) then Null else data[k])
    ensures forall k | k in n :: !(k in DateFields && IsZeroDate(n[k]))
  {
    map k | k in data :: if k in DateFields && IsZeroDate(data[k]) then Null else data[k]
  }

  lemma NormaliseIdempotent(data: Form)
    ensures Normalise(Normalise(data)) == Normalise(data)
  {
  }

  /** `changedData`: the fields of the form whose JSON text differs from the loaded task's. */
  function Diff(stringify: Json -> string, form: Form, initial: Form): (d: Form)
    ensures d.Keys <= form.Keys
    ensures forall k | k in form :: k in d <==> Encoded(stringify, form, k) != Encoded(stringify, initial, k)
    ensures forall k | k in d :: d[k] == form[k]
  {
    map k | k in form && Encoded(stringify, form, k) != Encoded(stringify, initial, k) :: form[k]
  }

  /** An untouched form has no changes. */
  lemma UntouchedFormHasNoDiff(stringify: Json -> string, form: Form)
    ensures Diff(stringify, form, form) == map[]
  {
  }

  /**
   * With a faithful `stringify` the diff is exactly the changed and the new
   * fields, and laying it over the loaded task gives back the form.
   */
  lemma DiffIsTheChange(stringify: Json -> string, form: Form, initial: Form)
    requires Faithful(stringify)
    ensures forall k | k in form :: k in Diff(stringify, form, initial) <==> k !in initial || form[k] != initial[k]
    ensures forall k | k in form :: (initial + Diff(stringify, form, initial))[k] == form[k]
  {
    var d := Diff(stringify, form, initial);
    forall k | k in form
      ensures k in d <==> k !in initial || form[k] != initial[k]
    {
      if k in initial && form[k] != initial[k] {
        assert stringify(form[k]) != stringify(initial[k]);
      }
    }
  }

  /** The fields a user may change. */
  const UserFields := {"checkStatus", "checkResult", "comment"}

  /** What `handleSubmit` sends: nothing, the administrator's diff, or the user's three fields. */
  datatype Update = NoChanges | ByAdmin(changes: Form) | ByUser(changes: Form)

  /**
   * `handleSubmit`. The user's object names three fields, but those absent
   * from the diff are `undefined` and are not serialised, so the request holds
   * only the user fields that changed.
   */
  function Submit(stringify: Json -> string, form: Form, initial: Form, isAdmin: bool): (u: Update)
    ensures u.NoChanges? <==> Diff(stringify, form, initial) == map[]
    ensures u.ByAdmin? <==> isAdmin && !u.NoChanges?
    ensures u.ByAdmin? ==> u.changes == Diff(stringify, form, initial)
    ensures u.ByUser? ==> u.changes.Keys <= UserFields
    ensures u.ByUser? ==> forall k | k in UserFields :: (k in u.changes <==> k in Diff(stringify, form, initial))
    ensures u.ByUser? ==> forall k | k in u.changes :: u.changes[k] == form[k]
  {
    var d := Diff(stringify, form, initial);
    if d == map[] then NoChanges
    else if isAdmin then ByAdmin(d)
    else ByUser(map k | k in d && k in UserFields :: d[k])
  }

  /** A user who changed only fields outside the three still sends a request, an empty one. */
  lemma UserOtherFieldsSendEmptyUpdate(stringify: Json -> string, form: Form, initial: Form)
    requires Diff(stringify, form, initial) != map[]
    requires forall k | k in Diff(stringify, form, initial) :: k !in UserFields
    ensures Submit(stringify, form, initial, false) == ByUser(map[])
  {
  }

  /** The loaded task and the form being edited. */
  datatype PageState = PageState(initial: Form, form: Form)

  /** `fetchDetails`: both copies are the normalised task. */
  function Load(data: Form): (s: PageState)
    ensures s.initial == s.form
    ensures s.initial.Keys == data.Keys
    ensures forall k | k in s.form :: !(k in DateFields && IsZeroDate(s.form[k]))
  {
    PageState(Normalise(data), Normalise(data))
  }

  /** A page just loaded sends nothing when submitted, whoever the user is. */
  lemma LoadedPageSendsNothing(stringify: Json -> string, data: Form, isAdmin: bool)
    ensures var s := Load(data); Submit(stringify, s.form, s.initial, isAdmin) == NoChanges
  {
    UntouchedFormHasNoDiff(stringify, Normalise(data));
  }

  /**
   * The page after the update request: `refetched` is the task fetched after a
   * successful update, `None` when the update or the fetch failed (the state is
   * kept). As written the refetched task is stored without `Normalise`.
   */
  function AfterUpdate(s: PageState, refetched: Option<Form>): (s': PageState)
    ensures refetched.Some? ==> s'.initial == s'.form == refetched.value
    ensures refetched.None? ==> s' == s
  {
    match refetched
    case None => s
    case Some(data) => PageState(data, data)
  }

  /** The same step with the refetched task normalised as on load. */
  function AfterUpdateNormalised(s: PageState, refetched: Option<Form>): (s': PageState)
    ensures refetched.Some? ==> s' == Load(refetched.value)
    ensures refetched.None? ==> s' == s
  {
    match refetched
    case None => s
    case Some(data) => Load(data)
  }

  /**
   * A task whose check date is Go's zero time: after an update the page shows
   * the zero date it cleared on load.
   */
  lemma RefetchKeepsZeroDate(s: PageState)
    ensures var data := map["checkDate" := Text("0001-01-01T00:00:00Z")];
            var after := AfterUpdate(s, Some(data));
            IsZeroDate(after.form["checkDate"]) && Load(data).form["checkDate"] == Null
  {
    var data := map["checkDate" := Text("0001-01-01T00:00:00Z")];
    assert HasPrefix(data["checkDate"].text, ZeroDatePrefix);
  }

  /** After any update the page is as after a fresh load of the refetched task, and unchanged. */
  lemma UpdateSettlesLikeLoad(stringify: Json -> string, s: PageState, refetched: Form, isAdmin: bool)
    ensures var s' := AfterUpdateNormalised(s, Some(refetched));
            s' == Load(refetched) && Submit(stringify, s'.form, s'.initial, isAdmin) == NoChanges
  {
    LoadedPageSendsNothing(stringify, refetched, isAdmin);
  }
}
