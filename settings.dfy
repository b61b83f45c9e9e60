/** `POST /api/admin/settings`: an administrator saves a batch of shop
    settings. Each entry is upserted in turn; over-long keys are skipped,
    values are turned into strings and cut, and the first failed upsert
    ends the request, leaving the entries before it saved. The `settings`
    table is a map from key to value that the method takes and returns. */
module Settings {
  import opened Common

  const MAX_KEY: nat := 100
  const MAX_VALUE: nat := 1000

  const NOT_AUTHORISED: string := "No autorizado"
  const INVALID_DATA: string := "Datos inválidos"
  const SAVE_FAILED: string := "Error guardando "
  const INTERNAL_ERROR: string := "Error interno del servidor"

  /** A value of the settings object as `String(value ?? '')` sees it: null
      (or undefined), a string, or any other JSON value with the text
      `String` gives it. */
  datatype SettingValue = Null | Str(s: string) | Other(rendered: string)

  /** `String(value ?? '')`. */
  function AsString(v: SettingValue): (r: string)
    ensures v.Null? ==> r == ""
    ensures v.Str? ==> r == v.s
    ensures v.Other? ==> r == v.rendered
  {
    match v
    case Null => ""
    case Str(s) => s
    case Other(t) => t
  }

  /** The request body: not JSON, a `settings` field that is falsy or not an
      object, or an object with its entries in `Object.entries` order. */
  datatype Body = NotJson | Invalid | Entries(entries: seq<(string, SettingValue)>)

  /** One entry's upsert, if it is not skipped: the key and the stored
      text. */
  function Attempt(e: (string, SettingValue)): (r: Option<(string, string)>)
    ensures r.None? <==> |e.0| > MAX_KEY
    ensures r.Some? ==> r.value == (e.0, Take(AsString(e.1), MAX_VALUE))
  {
    if |e.0| > MAX_KEY then None else Some((e.0, Take(AsString(e.1), MAX_VALUE)))
  }

  /** The upserts a run of entries asks for, in order. */
  function Attempts(es: seq<(string, SettingValue)>): seq<(string, string)> {
    if |es| == 0 then []
    else
      var step := Attempt(es[|es| - 1]);
      Attempts(es[..|es| - 1]) + (if step.Some? then [step.value] else [])
  }

  /** There are at most as many upserts as entries, each with a key of at
      most 100 characters and a text of at most 1000. */
  lemma {:induction false} AttemptsBounded(es: seq<(string, SettingValue)>)
    ensures |Attempts(es)| <= |es|
    ensures forall j :: 0 <= j < |Attempts(es)| ==> |Attempts(es)[j].0| <= MAX_KEY && |Attempts(es)[j].1| <= MAX_VALUE
  {
    if |es| > 0 {
      AttemptsBounded(es[..|es| - 1]);
    }
  }

  /** Each entry's upsert, if any, is the one of the entries that comes at
      its place: later entries only add upserts after it. */
  lemma {:induction false} AttemptsPrefix(es: seq<(string, SettingValue)>, i: nat)
    requires i <= |es|
    ensures Attempts(es[..i]) <= Attempts(es)
    decreases |es| - i
  {
    if i < |es| {
      AttemptsPrefix(es, i + 1);
      assert es[..i + 1][..i] == es[..i];
    } else {
      assert es[..i] == es;
    }
  }

  /** An entry with a key of at most 100 characters is upserted with its
      value's string form cut to 1000 characters; a longer key is not. */
  lemma AttemptsOfOne(es: seq<(string, SettingValue)>, e: (string, SettingValue))
    ensures |e.0| <= MAX_KEY ==> Attempts(es + [e]) == Attempts(es) + [(e.0, Take(AsString(e.1), MAX_VALUE))]
    ensures |e.0| > MAX_KEY ==> Attempts(es + [e]) == Attempts(es)
  {
    assert (es + [e])[..|es + [e]| - 1] == es;
  }

  /** The table after a run of upserts, each replacing or adding its key. */
  function ApplyAll(store: map<string, string>, a: seq<(string, string)>): map<string, string> {
    if |a| == 0 then store else ApplyAll(store, a[..|a| - 1])[a[|a| - 1].0 := a[|a| - 1].1]
  }

  /** After a run of upserts the table holds the old keys and the upserted
      ones; each value is the old one or one that was upserted under its
      key, and a key no upsert names keeps its value. */
  lemma {:induction false} ApplyAllSpec(store: map<string, string>, a: seq<(string, string)>)
    ensures var r := ApplyAll(store, a);
            (forall k :: k in r <==> k in store || exists j :: 0 <= j < |a| && a[j].0 == k) &&
            (forall k :: k in r ==> (k in store && r[k] == store[k]) || exists j :: 0 <= j < |a| && a[j] == (k, r[k])) &&
            (forall k :: k in store && (forall j :: 0 <= j < |a| ==> a[j].0 != k) ==> r[k] == store[k])
  {
    if |a| > 0 {
      var front := a[..|a| - 1];
      ApplyAllSpec(store, front);
      assert forall j :: 0 <= j < |front| ==> front[j] == a[j];
    }
  }

  /** Where the first upsert with a failing key sits. */
  function FirstFailure(a: seq<(string, string)>, failing: set<string>): (r: Option<nat>)
    ensures r.Some? ==> r.value < |a| && a[r.value].0 in failing &&
                        forall j :: 0 <= j < r.value ==> a[j].0 !in failing
    ensures r.None? <==> forall j :: 0 <= j < |a| ==> a[j].0 !in failing
  {
    if |a| == 0 then None
    else if a[0].0 in failing then Some(0)
    else match FirstFailure(a[1..], failing)
      case None => None
      case Some(k) => Some(k + 1)
  }

  /** The upsert loop over the entries: it stops at the first upsert whose
      key the database rejects, returning that key, with the upserts before
      it applied. */
  method UpsertAll(es: seq<(string, SettingValue)>, store: map<string, string>, failing: set<string>)
      returns (failed: Option<string>, store': map<string, string>)
    ensures FirstFailure(Attempts(es), failing).None? ==> failed.None? && store' == ApplyAll(store, Attempts(es))
    ensures FirstFailure(Attempts(es), failing).Some? ==>
              var j := FirstFailure(Attempts(es), failing).value;
              failed == Some(Attempts(es)[j].0) && store' == ApplyAll(store, Attempts(es)[..j])
  {
    store' := store;
    for i := 0 to |es|
      invariant store' == ApplyAll(store, Attempts(es[..i]))
      invariant forall j :: 0 <= j < |Attempts(es[..i])| ==> Attempts(es[..i])[j].0 !in failing
    {
      var key := es[i].0;
      AttemptsOfOne(es[..i], es[i]);
      assert es[..i + 1] == es[..i] + [es[i]];
      if |key| <= MAX_KEY {
        var value := Take(AsString(es[i].1), MAX_VALUE);
        if key in failing {
          FailureHere(es, i, failing);
          return Some(key), store';
        }
        ApplyOne(store, Attempts(es[..i]), (key, value));
        store' := store'[key := value];
      }
    }
    assert es[..|es|] == es;
    return None, store';
  }

  /** `POST`. `admin` is the outcome of the cookie-session admin check and
      `failing` the keys whose upsert the database rejects. */
  method Save(admin: bool, body: Body, store: map<string, string>, failing: set<string>)
      returns (status: int, error: string, store': map<string, string>)
    ensures !admin ==> status == 401 && error == NOT_AUTHORISED && store' == store
    ensures admin && body.NotJson? ==> status == 500 && error == INTERNAL_ERROR && store' == store
    ensures admin && body.Invalid? ==> status == 400 && error == INVALID_DATA && store' == store
    ensures status == 200 <==>
              admin && body.Entries? &&
              forall j :: 0 <= j < |Attempts(body.entries)| ==> Attempts(body.entries)[j].0 !in failing
    ensures status == 200 ==> error == "" && store' == ApplyAll(store, Attempts(body.entries))
    ensures admin && body.Entries? && FirstFailure(Attempts(body.entries), failing).Some? ==>
              var j := FirstFailure(Attempts(body.entries), failing).value;
              status == 500 && error == SAVE_FAILED + Attempts(body.entries)[j].0 &&
              store' == ApplyAll(store, Attempts(body.entries)[..j])
  {
    if !admin {
      return 401, NOT_AUTHORISED, store;
    }
    if body.NotJson? {
      return 500, INTERNAL_ERROR, store;
    }
    if body.Invalid? {
      return 400, INVALID_DATA, store;
    }
    var failed;
    failed, store' := UpsertAll(body.entries, store, failing);
    if failed.Some? {
      return 500, SAVE_FAILED + failed.value, store';
    }
    return 200, "", store';
  }

  /** Adding one upsert at the end is one more map update. */
  lemma ApplyOne(store: map<string, string>, a: seq<(string, string)>, u: (string, string))
    ensures ApplyAll(store, a + [u]) == ApplyAll(store, a)[u.0 := u.1]
  {
    assert (a + [u])[..|a + [u]| - 1] == a;
  }

  /** When entry `i` is the first attempted one with a failing key, the
      first failure of the whole batch is the upsert it asks for. */
  lemma FailureHere(es: seq<(string, SettingValue)>, i: nat, failing: set<string>)
    requires i < |es| && |es[i].0| <= MAX_KEY && es[i].0 in failing
    requires forall j :: 0 <= j < |Attempts(es[..i])| ==> Attempts(es[..i])[j].0 !in failing
    ensures FirstFailure(Attempts(es), failing) == Some(|Attempts(es[..i])|)
    ensures Attempts(es)[..|Attempts(es[..i])|] == Attempts(es[..i])
    ensures Attempts(es)[|Attempts(es[..i])|].0 == es[i].0
  {
    var d := Attempts(es[..i]);
    var a := Attempts(es);
    AttemptsOfOne(es[..i], es[i]);
    assert es[..i + 1] == es[..i] + [es[i]];
    AttemptsPrefix(es, i + 1);
    assert a[..|d| + 1] == d + [(es[i].0, Take(AsString(es[i].1), MAX_VALUE))];
    assert a[|d|].0 in failing;
    assert forall j :: 0 <= j < |d| ==> a[j] == d[j];
    var f := FirstFailure(a, failing);
    assert f.Some?;
  }

  /** A saved batch changes only the keys it names, each to its last
      upsert, and every text it stores has at most 1000 characters under a
      key of at most 100. */
  lemma SavedWithinBounds(store: map<string, string>, es: seq<(string, SettingValue)>, n: nat)
    requires n <= |Attempts(es)|
    ensures var r := ApplyAll(store, Attempts(es)[..n]);
            forall k :: k in r ==> (k in store && r[k] == store[k]) || (|k| <= MAX_KEY && |r[k]| <= MAX_VALUE)
  {
    var a := Attempts(es)[..n];
    AttemptsBounded(es);
    ApplyAllSpec(store, a);
    assert forall j :: 0 <= j < |a| ==> a[j] == Attempts(es)[j];
  }
}
