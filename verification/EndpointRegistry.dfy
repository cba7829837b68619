/**
 * The list of gateways the shell knows (desktop/endpointRegistry.js): reading it from any stored value,
 * and the edits the switcher makes. A stored value is a tree; its text form is not part of this model.
 */
module EndpointRegistry {
  import opened Options

  datatype Json = Null | Other | Str(text: string) | Arr(items: seq<Json>) | Obj(fields: map<string, Json>)

  datatype Kind = Local | Remote

  datatype Endpoint = Endpoint(id: string, name: string, baseUrl: string, kind: Kind, sessionRef: string)

  datatype Registry = Registry(active: string, endpoints: seq<Endpoint>)

  const NOTHING := Registry("", [])

  function Field(fields: map<string, Json>, name: string): Json {
    if name in fields then fields[name] else Null
  }

  function TextOf(value: Json): string {
    if value.Str? then value.text else ""
  }

  /** One stored row: dropped without an id, `remote` unless it says `local`. */
  function Coerce(value: Json): (row: Option<Endpoint>)
    ensures row.Some? ==> row.value.id != ""
  {
    if !value.Obj? then None
    else
      var id := TextOf(Field(value.fields, "id"));
      if id == "" then None
      else Some(Endpoint(
        id,
        TextOf(Field(value.fields, "label")),
        TextOf(Field(value.fields, "base_url")),
        if Field(value.fields, "kind") == Str("local") then Local else Remote,
        TextOf(Field(value.fields, "device_session_ref"))))
  }

  function Rows(value: Json): seq<Json> {
    if value.Obj? && Field(value.fields, "endpoints").Arr? then Field(value.fields, "endpoints").items else []
  }

  function Ids(endpoints: seq<Endpoint>): set<string> {
    set e <- endpoints :: e.id
  }

  /** The rows that can be one, the first of each id. */
  function FirstOfEach(rows: seq<Json>): seq<Endpoint> {
    if rows == [] then []
    else
      var before, row := FirstOfEach(rows[..|rows| - 1]), Coerce(rows[|rows| - 1]);
      if row.Some? && row.value.id !in Ids(before) then before + [row.value] else before
  }

  /** The active endpoint a list can have: the one wanted if it is there, else the first. */
  function ActiveOf(wanted: string, endpoints: seq<Endpoint>): string {
    if wanted in Ids(endpoints) then wanted else if endpoints != [] then endpoints[0].id else ""
  }

  function Normal(value: Json): Registry {
    if !value.Obj? then NOTHING
    else
      var endpoints := FirstOfEach(Rows(value));
      Registry(ActiveOf(TextOf(Field(value.fields, "active")), endpoints), endpoints)
  }

  method NormalizeRegistry(value: Json) returns (registry: Registry)
    ensures registry == Normal(value)
  {
    if !value.Obj? {
      return NOTHING;
    }
    var rows := Rows(value);
    var endpoints, seen := [], {};
    var i := 0;
    while i < |rows|
      invariant 0 <= i <= |rows|
      invariant endpoints == FirstOfEach(rows[..i])
      invariant seen == Ids(endpoints)
    {
      assert rows[..i + 1][..i] == rows[..i];
      var row := Coerce(rows[i]);
      if row.Some? && row.value.id !in seen {
        assert Ids(endpoints + [row.value]) == seen + {row.value.id};
        seen := seen + {row.value.id};
        endpoints := endpoints + [row.value];
      }
      i := i + 1;
    }
    assert rows[..i] == rows;
    var wanted := TextOf(Field(value.fields, "active"));
    var active := if wanted in seen then wanted else if endpoints != [] then endpoints[0].id else "";
    registry := Registry(active, endpoints);
  }

  // ── What a list is ──

  /** No id is empty or said twice. */
  predicate Distinct(endpoints: seq<Endpoint>) {
    && (forall i | 0 <= i < |endpoints| :: endpoints[i].id != "")
    && (forall i, j | 0 <= i < j < |endpoints| :: endpoints[i].id != endpoints[j].id)
  }

  /** Ids that are distinct, of which the active one is listed, or nothing is. */
  predicate WellFormed(registry: Registry) {
    && Distinct(registry.endpoints)
    && (if registry.endpoints == [] then registry.active == "" else registry.active in Ids(registry.endpoints))
  }

  lemma {:induction false} FirstsAreDistinct(rows: seq<Json>)
    ensures Distinct(FirstOfEach(rows))
  {
    if rows != [] {
      var before := FirstOfEach(rows[..|rows| - 1]);
      FirstsAreDistinct(rows[..|rows| - 1]);
      assert forall i | 0 <= i < |before| :: before[i].id in Ids(before);
    }
  }

  /** Whatever is stored, what is read is a list; and which rows are read is exact: the first of its id
      among those that can be one. */
  lemma AlwaysAList(value: Json)
    ensures WellFormed(Normal(value))
  {
    FirstsAreDistinct(Rows(value));
    var endpoints := FirstOfEach(Rows(value));
    assert endpoints != [] ==> endpoints[0].id in Ids(endpoints);
  }

  /** What a stored row is read as: none without an id that is a text; else its texts, an absent one empty, and
      remote unless it says `local`. */
  lemma RowIsReadAs(value: Json)
    ensures Coerce(value).Some? <==>
              value.Obj? && "id" in value.fields && value.fields["id"].Str? && value.fields["id"].text != ""
    ensures Coerce(value).Some? ==>
              var row, fields := Coerce(value).value, value.fields;
              && row.id == fields["id"].text
              && row.name == (if "label" in fields && fields["label"].Str? then fields["label"].text else "")
              && row.baseUrl == (if "base_url" in fields && fields["base_url"].Str? then fields["base_url"].text else "")
              && row.sessionRef == (if "device_session_ref" in fields && fields["device_session_ref"].Str? then fields["device_session_ref"].text else "")
              && (row.kind == Local <==> "kind" in fields && fields["kind"] == Str("local"))
  {
  }

  predicate IsFirst(rows: seq<Json>, i: nat)
    requires i < |rows|
  {
    Coerce(rows[i]).Some? &&
    forall j | 0 <= j < i :: Coerce(rows[j]).Some? ==> Coerce(rows[j]).value.id != Coerce(rows[i]).value.id
  }

  lemma {:induction false} ReadIds(rows: seq<Json>, id: string)
    ensures id in Ids(FirstOfEach(rows)) <==> exists i | 0 <= i < |rows| :: Coerce(rows[i]).Some? && Coerce(rows[i]).value.id == id
  {
    if rows != [] {
      hide Coerce;
      var front, row := rows[..|rows| - 1], Coerce(rows[|rows| - 1]);
      ReadIds(front, id);
      assert rows == front + [rows[|rows| - 1]];
      var before := FirstOfEach(front);
      if row.Some? {
        assert Ids(before + [row.value]) == Ids(before) + {row.value.id};
      }
    }
  }

  lemma FirstBefore(rows: seq<Json>, i: nat)
    requires i < |rows|
    ensures i < |rows| - 1 ==> (IsFirst(rows[..|rows| - 1], i) <==> IsFirst(rows, i))
    ensures i == |rows| - 1 ==>
              (IsFirst(rows, i) <==> Coerce(rows[i]).Some? && Coerce(rows[i]).value.id !in Ids(FirstOfEach(rows[..i])))
  {
    hide Coerce;
    if Coerce(rows[i]).Some? {
      ReadIds(rows[..|rows| - 1], Coerce(rows[i]).value.id);
    }
  }

  lemma {:induction false} ReadExactlyWhen(rows: seq<Json>, e: Endpoint)
    ensures e in FirstOfEach(rows) <==> exists i | 0 <= i < |rows| :: IsFirst(rows, i) && Coerce(rows[i]) == Some(e)
  {
    hide Coerce, IsFirst, Ids;
    if rows != [] {
      var n := |rows| - 1;
      ReadExactlyWhen(rows[..n], e);
      forall i | 0 <= i < |rows|
        ensures i < n ==> rows[..n][i] == rows[i] && (IsFirst(rows[..n], i) <==> IsFirst(rows, i))
        ensures i == n ==>
                  (IsFirst(rows, i) <==> Coerce(rows[i]).Some? && Coerce(rows[i]).value.id !in Ids(FirstOfEach(rows[..n])))
      {
        FirstBefore(rows, i);
      }
    }
  }

  lemma DistinctEnds(front: seq<Endpoint>, last: Endpoint)
    ensures Distinct(front + [last]) <==> Distinct(front) && last.id != "" && forall e <- front :: e.id != last.id
  {
    var all := front + [last];
    assert forall i | 0 <= i < |front| :: all[i] == front[i];
    assert all[|front|] == last;
  }

  // ── Saving ──

  function RowOf(e: Endpoint): Json {
    Obj(map["id" := Str(e.id), "label" := Str(e.name), "base_url" := Str(e.baseUrl),
            "kind" := Str(if e.kind == Local then "local" else "remote"), "device_session_ref" := Str(e.sessionRef)])
  }

  function RowsOf(endpoints: seq<Endpoint>): seq<Json> {
    seq(|endpoints|, i requires 0 <= i < |endpoints| => RowOf(endpoints[i]))
  }

  function Saved(registry: Registry): Json {
    Obj(map["active" := Str(registry.active), "endpoints" := Arr(RowsOf(registry.endpoints))])
  }

  lemma RowComesBack(e: Endpoint)
    requires e.id != ""
    ensures Coerce(RowOf(e)) == Some(e)
  {
  }

  lemma {:induction false} RowsComeBack(endpoints: seq<Endpoint>)
    requires Distinct(endpoints)
    ensures FirstOfEach(RowsOf(endpoints)) == endpoints
  {
    hide Distinct, RowOf, Coerce;
    if endpoints != [] {
      var n := |endpoints| - 1;
      var front, last := endpoints[..n], endpoints[n];
      assert front + [last] == endpoints;
      DistinctEnds(front, last);
      RowsComeBack(front);
      assert RowsOf(endpoints)[..n] == RowsOf(front);
      RowComesBack(last);
    }
  }

  /** A saved list is read back as it was, exactly when it is a list. */
  lemma ReadsBackExactlyWhen(registry: Registry)
    ensures Normal(Saved(registry)) == registry <==> WellFormed(registry)
  {
    AlwaysAList(Saved(registry));
    if WellFormed(registry) {
      RowsComeBack(registry.endpoints);
    }
  }

  // ── Edits ──

  function IndexOf(endpoints: seq<Endpoint>, id: string): (at: Option<nat>)
    ensures at.Some? ==> at.value < |endpoints| && endpoints[at.value].id == id
    ensures at.None? ==> id !in Ids(endpoints)
  {
    if endpoints == [] then None
    else if endpoints[0].id == id then Some(0)
    else
      var rest := IndexOf(endpoints[1..], id);
      assert endpoints == [endpoints[0]] + endpoints[1..];
      if rest.Some? then Some(rest.value + 1) else None
  }

  function Add(registry: Registry, row: Endpoint): Registry {
    var at := IndexOf(registry.endpoints, row.id);
    Registry(row.id, if at.Some? then registry.endpoints[at.value := row] else registry.endpoints + [row])
  }

  function Others(endpoints: seq<Endpoint>, id: string): seq<Endpoint> {
    if endpoints == [] then []
    else
      var before, last := Others(endpoints[..|endpoints| - 1], id), endpoints[|endpoints| - 1];
      if last.id == id then before else before + [last]
  }

  function Remove(registry: Registry, id: string): Registry {
    var endpoints := Others(registry.endpoints, id);
    if |endpoints| == |registry.endpoints| then registry
    else Registry(if registry.active == id then (if endpoints != [] then endpoints[0].id else "") else registry.active, endpoints)
  }

  function SetActive(registry: Registry, id: string): Registry {
    if id in Ids(registry.endpoints) then registry.(active := id) else registry
  }

  lemma {:induction false} OthersHas(endpoints: seq<Endpoint>, id: string)
    ensures forall e :: e in Others(endpoints, id) <==> e in endpoints && e.id != id
    ensures |Others(endpoints, id)| <= |endpoints|
    ensures |Others(endpoints, id)| == |endpoints| ==> Others(endpoints, id) == endpoints
  {
    if endpoints != [] {
      var front, last := endpoints[..|endpoints| - 1], endpoints[|endpoints| - 1];
      OthersHas(front, id);
      assert endpoints == front + [last];
    }
  }

  lemma {:induction false} OthersDistinct(endpoints: seq<Endpoint>, id: string)
    requires Distinct(endpoints)
    ensures Distinct(Others(endpoints, id))
  {
    hide Distinct;
    if endpoints != [] {
      var front, last := endpoints[..|endpoints| - 1], endpoints[|endpoints| - 1];
      assert endpoints == front + [last];
      DistinctEnds(front, last);
      OthersDistinct(front, id);
      OthersHas(front, id);
      DistinctEnds(Others(front, id), last);
    }
  }

  /** Adding keeps a list a list exactly when the row has an id: the row is then listed and active, every
      other row stays where it was, and a second row of one id never appears. */
  lemma AddsExactlyWhen(registry: Registry, row: Endpoint)
    requires WellFormed(registry)
    ensures WellFormed(Add(registry, row)) <==> row.id != ""
    ensures Add(registry, row).active == row.id && row in Add(registry, row).endpoints
    ensures forall i | 0 <= i < |registry.endpoints| && registry.endpoints[i].id != row.id ::
              Add(registry, row).endpoints[i] == registry.endpoints[i]
    ensures |Add(registry, row).endpoints| == |registry.endpoints| + if row.id in Ids(registry.endpoints) then 0 else 1
  {
    var at, added := IndexOf(registry.endpoints, row.id), Add(registry, row).endpoints;
    var k := if at.Some? then at.value else |registry.endpoints|;
    assert added[k] == row;
    assert row.id in Ids(added);
    if at.None? {
      assert forall i | 0 <= i < |registry.endpoints| :: registry.endpoints[i].id in Ids(registry.endpoints);
    } else {
      assert registry.endpoints[k].id in Ids(registry.endpoints);
    }
  }

  /** Removing keeps a list a list, and takes exactly the row of that id; if it was active the first that
      stays is. */
  lemma RemovesOneRow(registry: Registry, id: string)
    requires WellFormed(registry)
    ensures WellFormed(Remove(registry, id))
    ensures forall e :: e in Remove(registry, id).endpoints <==> e in registry.endpoints && e.id != id
    ensures registry.active != id ==> Remove(registry, id).active == registry.active
  {
    var others := Others(registry.endpoints, id);
    OthersHas(registry.endpoints, id);
    OthersDistinct(registry.endpoints, id);
    assert forall i | 0 <= i < |others| :: others[i] in registry.endpoints;
    if others != [] {
      assert others[0].id in Ids(others);
    }
    if registry.endpoints != [] && registry.active != id {
      var e :| e in registry.endpoints && e.id == registry.active;
      assert e in others;
    }
  }

  datatype Edit = AddRow(row: Endpoint) | RemoveRow(id: string) | Activate(id: string)

  function Edited(registry: Registry, edit: Edit): Registry {
    match edit
    case AddRow(row) => Add(registry, row)
    case RemoveRow(id) => Remove(registry, id)
    case Activate(id) => SetActive(registry, id)
  }

  function AfterEdits(value: Json, edits: seq<Edit>, n: nat): Registry
    requires n <= |edits|
  {
    if n == 0 then Normal(value) else Edited(AfterEdits(value, edits, n - 1), edits[n - 1])
  }

  /** Over every run of edits of rows with ids, from whatever was stored: the switcher always holds a
      list, and saving it then reading it changes nothing. */
  lemma {:induction false} EditsKeepAList(value: Json, edits: seq<Edit>, n: nat)
    requires n <= |edits|
    requires forall k | 0 <= k < n :: edits[k].AddRow? ==> edits[k].row.id != ""
    ensures WellFormed(AfterEdits(value, edits, n))
    ensures Normal(Saved(AfterEdits(value, edits, n))) == AfterEdits(value, edits, n)
  {
    hide Normal, Saved, Add, Remove;
    if n == 0 {
      AlwaysAList(value);
    } else {
      EditsKeepAList(value, edits, n - 1);
      var before := AfterEdits(value, edits, n - 1);
      match edits[n - 1]
      case AddRow(row) => AddsExactlyWhen(before, row);
      case RemoveRow(id) => RemovesOneRow(before, id);
      case Activate(id) =>
    }
    ReadsBackExactlyWhen(AfterEdits(value, edits, n));
  }
}
