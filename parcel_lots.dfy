/**
 * The lot data of the parcel map (assets/js/script-mapa.js): lot ids, status colours,
 * the units received from the stock API (kept in a code-keyed object, `unitsData`)
 * and their merge into the list of all lots (`todosLosLotes`).
 * Network replies are inputs; the Leaflet layers are not modelled.
 */
module ParcelLots {
  import opened Wrappers
  import opened Text

  /** A JavaScript property that may be missing, null or hold a value. */
  datatype JsField<T> = Undefined | Null | Value(v: T)

  /** JavaScript truthiness of a string property. */
  predicate TruthyText(f: JsField<string>) { f.Value? && f.v != "" }

  // ---------------------------------------------------------------- lot ids

  /** The end of the run of upper-case letters starting at i. */
  function UpperRun(s: string, i: nat): (j: nat)
    requires i <= |s|
    ensures i <= j <= |s| && (j < |s| ==> !IsUpper(s[j]))
    ensures forall k :: i <= k < j ==> IsUpper(s[k])
    decreases |s| - i
  {
    if i < |s| && IsUpper(s[i]) then UpperRun(s, i + 1) else i
  }

  /** The end of the run of digits starting at i. */
  function DigitRun(s: string, i: nat): (j: nat)
    requires i <= |s|
    ensures i <= j <= |s| && (j < |s| ==> !IsDigit(s[j]))
    ensures forall k :: i <= k < j ==> IsDigit(s[k])
    decreases |s| - i
  {
    if i < |s| && IsDigit(s[i]) then DigitRun(s, i + 1) else i
  }

  /**
   * The match of /([A-Z]+)(\d*)-(\d+)/ that starts at i, as (group 1 + group 2, group 3).
   * Both runs are greedy, and giving characters back cannot help: the character after a
   * shortened run is a letter or a digit, never the '-' the pattern needs next.
   */
  function LotMatchAt(s: string, i: nat): Option<(string, string)>
    requires i <= |s|
  {
    var j := UpperRun(s, i);
    var k := DigitRun(s, j);
    if j > i && k + 1 < |s| && s[k] == '-' && IsDigit(s[k + 1]) then Some((s[i..k], s[k + 1..DigitRun(s, k + 1)]))
    else None
  }

  /** The leftmost match at or after i. */
  function FirstLotMatch(s: string, i: nat): Option<(string, string)>
    requires i <= |s|
    decreases |s| - i
  {
    if i == |s| then None
    else if LotMatchAt(s, i).Some? then LotMatchAt(s, i)
    else FirstLotMatch(s, i + 1)
  }

  /** The match of /Lote ([A-Z]+)(\d+)/ that starts at i. */
  function OldMatchAt(s: string, i: nat): Option<(string, string)>
    requires i <= |s|
  {
    if "Lote " <= s[i..] then
      var j := UpperRun(s, i + 5);
      var k := DigitRun(s, j);
      if j > i + 5 && k > j then Some((s[i + 5..j], s[j..k])) else None
    else None
  }

  function FirstOldMatch(s: string, i: nat): Option<(string, string)>
    requires i <= |s|
    decreases |s| - i
  {
    if i == |s| then None
    else if OldMatchAt(s, i).Some? then OldMatchAt(s, i)
    else FirstOldMatch(s, i + 1)
  }

  lemma {:induction false} FirstLotMatchShape(s: string, i: nat)
    requires i <= |s|
    ensures FirstLotMatch(s, i).Some? ==> FirstLotMatch(s, i).value.0 != "" && FirstLotMatch(s, i).value.1 != ""
    decreases |s| - i
  {
    if i < |s| && LotMatchAt(s, i).None? { FirstLotMatchShape(s, i + 1); }
  }

  lemma {:induction false} FirstOldMatchShape(s: string, i: nat)
    requires i <= |s|
    ensures FirstOldMatch(s, i).Some? ==> FirstOldMatch(s, i).value.0 != "" && FirstOldMatch(s, i).value.1 != ""
    decreases |s| - i
  {
    if i < |s| && OldMatchAt(s, i).None? { FirstOldMatchShape(s, i + 1); }
  }

  datatype LotParts = LotParts(manzana: string, lote: string, id: string)

  /** parsearLoteId: block and lot number of an id, the old "Lote X12" form as a fallback. */
  function ParseLotId(id: string): (r: LotParts)
    ensures r.id == id
    ensures r.manzana == "" <==> r.lote == ""
  {
    FirstLotMatchShape(id, 0);
    FirstOldMatchShape(id, 0);
    match FirstLotMatch(id, 0)
    case Some((m, l)) => LotParts(m, l, id)
    case None =>
      match FirstOldMatch(id, 0)
      case Some((m, l)) => LotParts(m, l, id)
      case None => LotParts("", "", id)
  }

  lemma {:induction false} UpperRunIs(s: string, i: nat, j: nat)
    requires i <= j <= |s| && (j < |s| ==> !IsUpper(s[j]))
    requires forall k :: i <= k < j ==> IsUpper(s[k])
    ensures UpperRun(s, i) == j
    decreases j - i
  {
    if i < j { UpperRunIs(s, i + 1, j); }
  }

  lemma {:induction false} DigitRunIs(s: string, i: nat, j: nat)
    requires i <= j <= |s| && (j < |s| ==> !IsDigit(s[j]))
    requires forall k :: i <= k < j ==> IsDigit(s[k])
    ensures DigitRun(s, i) == j
    decreases j - i
  {
    if i < j { DigitRunIs(s, i + 1, j); }
  }

  predicate AllUpper(s: string) { forall i :: 0 <= i < |s| ==> IsUpper(s[i]) }

  /** An id written as letters, optional digits, '-' and a number splits into block and lot ("A1-01" is A1, 01). */
  lemma {:induction false} ParseCanonicalId(letters: string, digits: string, lot: string)
    requires |letters| > 0 && AllUpper(letters) && AllDigits(digits)
    requires |lot| > 0 && AllDigits(lot)
    ensures ParseLotId(letters + digits + "-" + lot) == LotParts(letters + digits, lot, letters + digits + "-" + lot)
  {
    var s := letters + digits + "-" + lot;
    var j, k := |letters|, |letters| + |digits|;
    assert s[k] == '-';
    UpperRunIs(s, 0, j);
    DigitRunIs(s, j, k);
    DigitRunIs(s, k + 1, |s|);
    assert s[0..k] == letters + digits;
    assert s[k + 1..|s|] == lot;
  }

  lemma {:induction false} NoDashNoLotMatch(s: string, i: nat)
    requires i <= |s| && '-' !in s
    ensures FirstLotMatch(s, i).None?
    decreases |s| - i
  {
    if i < |s| { NoDashNoLotMatch(s, i + 1); }
  }

  /** The older "Lote X12" form is read as block X, lot 12. */
  lemma {:induction false} ParseOldFormId(letters: string, lot: string)
    requires |letters| > 0 && AllUpper(letters)
    requires |lot| > 0 && AllDigits(lot)
    ensures ParseLotId("Lote " + letters + lot) == LotParts(letters, lot, "Lote " + letters + lot)
  {
    var s := "Lote " + letters + lot;
    assert '-' !in s by {
      forall i | 0 <= i < |s| ensures s[i] != '-' {
        if 5 <= i < 5 + |letters| { assert s[i] == letters[i - 5]; }
        else if i >= 5 + |letters| { assert s[i] == lot[i - 5 - |letters|]; }
      }
    }
    NoDashNoLotMatch(s, 0);
    assert s[0..] == s;
    assert "Lote " <= s;
    UpperRunIs(s, 5, 5 + |letters|);
    DigitRunIs(s, 5 + |letters|, |s|);
    assert s[5..5 + |letters|] == letters;
    assert s[5 + |letters|..|s|] == lot;
  }

  /** Without a '-' and without the text "Lote " nothing is recognised. */
  lemma NoFormNoParts(id: string)
    requires '-' !in id && !Contains(id, "Lote ")
    ensures ParseLotId(id) == LotParts("", "", id)
  {
    NoDashNoLotMatch(id, 0);
    NoOldMatch(id, 0);
  }

  lemma {:induction false} NoOldMatch(s: string, i: nat)
    requires i <= |s| && !Contains(s[i..], "Lote ")
    ensures FirstOldMatch(s, i).None?
    decreases |s| - i
  {
    if i < |s| {
      assert s[i..][1..] == s[i + 1..];
      NoOldMatch(s, i + 1);
    }
  }

  // ---------------------------------------------------------------- colours

  datatype Colors = Colors(fillColor: string, color: string)

  const AvailableColors := Colors("#ffffff", "#111827")
  const ReservedColors := Colors("#f97316", "#ea580c")
  const SoldColors := Colors("#16a34a", "#15803d")
  const BlockedColors := Colors("#dc2626", "#b91c1c")
  const DefaultColors := Colors("#007bff", "#0056b3")

  /** The switch of getStatusColor on an already lower-cased status. */
  function ColorOfLower(t: string): Colors {
    if t == "disponible" then AvailableColors
    else if t == "reservado" then ReservedColors
    else if t == "vendido" then SoldColors
    else if t == "bloqueado" then BlockedColors
    else DefaultColors
  }

  /** getStatusColor: the switch on the lower-cased status; a missing status takes the default. */
  function StatusColor(status: JsField<string>): Colors {
    if !status.Value? then DefaultColors else ColorOfLower(Lower(status.v))
  }

  const KnownStatuses: set<string> := {"disponible", "reservado", "vendido", "bloqueado"}

  /** Only the four known statuses leave the default blue. */
  lemma DefaultIffUnknown(t: string)
    ensures ColorOfLower(t) == DefaultColors <==> t !in KnownStatuses
  {
    if t == "disponible" {
      assert AvailableColors.fillColor[1] != DefaultColors.fillColor[1];
    } else if t == "reservado" {
      assert ReservedColors.fillColor[1] != DefaultColors.fillColor[1];
    } else if t == "vendido" {
      assert SoldColors.fillColor[1] != DefaultColors.fillColor[1];
    } else if t == "bloqueado" {
      assert BlockedColors.fillColor[1] != DefaultColors.fillColor[1];
    }
  }

  /** The colour does not depend on letter case, and only the four known statuses leave the default blue. */
  lemma StatusColorFacts(s: string)
    ensures StatusColor(Value(s)) == StatusColor(Value(Lower(s)))
    ensures StatusColor(Value(s)) == DefaultColors <==> Lower(s) !in KnownStatuses
  {
    LowerIdempotent(s);
    DefaultIffUnknown(Lower(s));
  }

  // ---------------------------------------------------------------- units from the API

  /** A unit as the stock API reports it (only the fields that are read). */
  datatype ApiUnit = ApiUnit(code: JsField<string>, status: JsField<string>, areaSqm: JsField<int>)

  /** The value stored in unitsData for a unit. */
  datatype UnitEntry = UnitEntry(estado: JsField<string>, area: JsField<int>, unitCode: string, stageId: int)

  /** A unit is kept when its code is truthy and its status and area are defined (null passes). */
  predicate Kept(u: ApiUnit) {
    TruthyText(u.code) && !u.status.Undefined? && !u.areaSqm.Undefined?
  }

  function EntryOf(u: ApiUnit, stageId: int): UnitEntry
    requires Kept(u)
  {
    UnitEntry(u.status, u.areaSqm, u.code.v, stageId)
  }

  /** The codes an object assignment adds: a new key goes to the end of Object.keys, an old one keeps its place. */
  function AddKey(keys: seq<string>, k: string): seq<string> {
    if k in keys then keys else keys + [k]
  }

  /** unitsData after the properties of one stage are processed in order, with its key order. */
  function Ingest(data: map<string, UnitEntry>, keys: seq<string>, props: seq<ApiUnit>, stageId: int)
    : (r: (map<string, UnitEntry>, seq<string>))
    decreases |props|
  {
    if |props| == 0 then (data, keys)
    else
      var prev := Ingest(data, keys, props[..|props| - 1], stageId);
      var u := props[|props| - 1];
      if Kept(u) then (prev.0[u.code.v := EntryOf(u, stageId)], AddKey(prev.1, u.code.v)) else prev
  }

  /** The key list stays the object's keys, each once. */
  lemma {:induction false} IngestKeys(data: map<string, UnitEntry>, keys: seq<string>, props: seq<ApiUnit>, stageId: int)
    requires Distinct(keys) && (forall k :: k in keys <==> k in data)
    ensures var r := Ingest(data, keys, props, stageId); Distinct(r.1) && (forall k :: k in r.1 <==> k in r.0)
    decreases |props|
  {
    if |props| > 0 {
      IngestKeys(data, keys, props[..|props| - 1], stageId);
      var prev := Ingest(data, keys, props[..|props| - 1], stageId);
      var u := props[|props| - 1];
      if Kept(u) && u.code.v !in prev.1 { AppendFresh(prev.1, u.code.v); }
    }
  }

  /** A code no kept unit carries keeps its entry, or its absence. */
  lemma {:induction false} IngestUntouched(data: map<string, UnitEntry>, keys: seq<string>, props: seq<ApiUnit>, stageId: int, c: string)
    requires forall i :: 0 <= i < |props| && Kept(props[i]) ==> props[i].code.v != c
    ensures var r := Ingest(data, keys, props, stageId); (c in r.0 <==> c in data) && (c in data ==> r.0[c] == data[c])
    decreases |props|
  {
    if |props| > 0 {
      var p := props[..|props| - 1];
      assert forall i :: 0 <= i < |p| ==> p[i] == props[i];
      IngestUntouched(data, keys, p, stageId, c);
    }
  }

  /** A code's entry comes from the last kept unit with that code: a later unit overwrites an earlier one. */
  lemma {:induction false} IngestLastWins(data: map<string, UnitEntry>, keys: seq<string>, props: seq<ApiUnit>, stageId: int, i: nat)
    requires i < |props| && Kept(props[i])
    requires forall j :: i < j < |props| && Kept(props[j]) ==> props[j].code.v != props[i].code.v
    ensures var r := Ingest(data, keys, props, stageId);
            props[i].code.v in r.0 && r.0[props[i].code.v] == EntryOf(props[i], stageId)
    decreases |props|
  {
    if i < |props| - 1 {
      var p := props[..|props| - 1];
      assert forall j :: 0 <= j < |p| ==> p[j] == props[j];
      IngestLastWins(data, keys, p, stageId, i);
    }
  }

  /** One stage's reply body, after response.json(). */
  datatype Body =
    | NotJson                                  // response.json() throws
    | Json(properties: Option<seq<ApiUnit>>)   // Some when succeeded, data and data.properties are all truthy

  datatype Fetch = NetworkError | Reply(status: int, body: Body)

  /** What the network does for one stage: the first fetch, the token renewal and the retried fetch. */
  datatype Attempt = Attempt(first: Fetch, renewed: bool, retry: Fetch)

  predicate Ok(status: int) { 200 <= status < 300 }

  function PropsOf(b: Body): seq<ApiUnit>
    requires b.Json?
  {
    if b.properties.Some? then b.properties.value else []
  }

  /** The units a stage contributes, or Failure when getUnitsData throws for it. */
  function StageUnits(a: Attempt): (r: Result<seq<ApiUnit>, string>)
    ensures r.Success? <==>
      (a.first.Reply? && Ok(a.first.status) && a.first.body.Json?)
      || (a.first.Reply? && a.first.status == 401 && a.renewed && a.retry.Reply? && Ok(a.retry.status) && a.retry.body.Json?)
  {
    match a.first
    case NetworkError => Failure("network")
    case Reply(status, body) =>
      if Ok(status) then
        if body.NotJson? then Failure("json") else Success(PropsOf(body))
      else if status == 401 && a.renewed && a.retry.Reply? && Ok(a.retry.status) && a.retry.body.Json? then
        Success(PropsOf(a.retry.body))
      else Failure("api")
  }

  const StageIds: seq<int> := [1, 2]

  /** unitsData after the stages from index i on, stopping at the first stage that throws. */
  function Stages(data: map<string, UnitEntry>, keys: seq<string>, attempts: seq<Attempt>, i: nat)
    : (r: (map<string, UnitEntry>, seq<string>))
    requires |attempts| == |StageIds| && i <= |StageIds|
    decreases |StageIds| - i
  {
    if i == |StageIds| then (data, keys)
    else match StageUnits(attempts[i])
      case Failure(_) => (data, keys)
      case Success(props) =>
        var next := Ingest(data, keys, props, StageIds[i]);
        Stages(next.0, next.1, attempts, i + 1)
  }

  /** A throw in the first stage leaves unitsData empty; one in the second keeps what the first stored. */
  lemma StagesStop(attempts: seq<Attempt>)
    requires |attempts| == |StageIds|
    ensures StageUnits(attempts[0]).Failure? ==> Stages(map[], [], attempts, 0) == (map[], [])
    ensures StageUnits(attempts[0]).Success? && StageUnits(attempts[1]).Failure?
            ==> Stages(map[], [], attempts, 0) == Ingest(map[], [], StageUnits(attempts[0]).value, 1)
  {
  }

  /** getLotInfo's answer for a known code. */
  datatype LotInfo = LotInfo(status: string, area: int)

  /** getLotInfo: null for an unknown code, else the status ('N/A' when falsy) and the area (0 when falsy). */
  function GetLotInfo(data: map<string, UnitEntry>, code: string): (r: Option<LotInfo>)
    ensures r.None? <==> code !in data
    ensures r.Some? ==> r.value.status == (if TruthyText(data[code].estado) then data[code].estado.v else "N/A")
    ensures r.Some? ==> r.value.area == (if data[code].area.Value? && data[code].area.v != 0 then data[code].area.v else 0)
  {
    if code !in data then None
    else
      var u := data[code];
      Some(LotInfo(if TruthyText(u.estado) then u.estado.v else "N/A",
                   if u.area.Value? && u.area.v != 0 then u.area.v else 0))
  }

  // ---------------------------------------------------------------- lots

  /** A lot of todosLosLotes (the fields the page reads; the area is its number of square metres). */
  datatype Lot = Lot(id: string, manzana: string, loteNumero: string, estado: string, area: int)

  /** Step 1 of the merge: a lot known to the API takes the API's status and area. */
  function UpdateLot(data: map<string, UnitEntry>, l: Lot): Lot {
    match GetLotInfo(data, l.id)
    case Some(info) => l.(estado := info.status, area := info.area)
    case None => l
  }

  function UpdateAll(data: map<string, UnitEntry>, lots: seq<Lot>): (r: seq<Lot>)
    ensures |r| == |lots| && forall i :: 0 <= i < |lots| ==> r[i] == UpdateLot(data, lots[i])
  {
    if |lots| == 0 then [] else [UpdateLot(data, lots[0])] + UpdateAll(data, lots[1..])
  }

  /**
   * Step 2: the lot made for an API code the list lacks. The source reads `apiData.status`,
   * a field the stored entries do not have (they carry `estado`), so the fallback 'Disponible'
   * is always taken; the area falls back to 100 when falsy.
   */
  function NewLot(data: map<string, UnitEntry>, code: string): Lot
    requires code in data
  {
    var p := ParseLotId(code);
    var area := data[code].area;
    Lot(code, p.manzana, p.lote, "Disponible", if area.Value? && area.v != 0 then area.v else 100)
  }

  function Ids(lots: seq<Lot>): set<string> {
    set l | l in lots :: l.id
  }

  /** The lots appended for the keys, in key order, skipping the ids already present. */
  function NewLots(data: map<string, UnitEntry>, keys: seq<string>, existing: set<string>): (r: seq<Lot>)
    requires forall k :: k in keys ==> k in data
    decreases |keys|
  {
    if |keys| == 0 then []
    else
      var prev := NewLots(data, keys[..|keys| - 1], existing);
      var k := keys[|keys| - 1];
      if k !in existing then prev + [NewLot(data, k)] else prev
  }

  /** todosLosLotes after the merge of updateExistingPolygons. */
  function Merged(data: map<string, UnitEntry>, keys: seq<string>, lots: seq<Lot>): seq<Lot>
    requires forall k :: k in keys ==> k in data
  {
    if |data| == 0 then lots else UpdateAll(data, lots) + NewLots(data, keys, Ids(lots))
  }

  function CountIdRec(lots: seq<Lot>, id: string): nat
    decreases |lots|
  {
    if |lots| == 0 then 0 else CountIdRec(lots[..|lots| - 1], id) + (if lots[|lots| - 1].id == id then 1 else 0)
  }

  /** Every API code the list lacks is appended exactly once, and none that it has. */
  lemma {:induction false} NewLotsOnce(data: map<string, UnitEntry>, keys: seq<string>, existing: set<string>, c: string)
    requires Distinct(keys) && forall k :: k in keys ==> k in data
    ensures CountIdRec(NewLots(data, keys, existing), c) == if c in keys && c !in existing then 1 else 0
    decreases |keys|
  {
    if |keys| > 0 {
      var p, k := keys[..|keys| - 1], keys[|keys| - 1];
      assert keys == p + [k];
      assert forall x :: x in keys <==> x in p || x == k;
      assert k !in p;
      NewLotsOnce(data, p, existing, c);
      var prev := NewLots(data, p, existing);
      if k !in existing {
        assert (prev + [NewLot(data, k)])[..|prev|] == prev;
      }
    }
  }

  /** The appended lots are lots for API codes the list lacked, all marked 'Disponible'. */
  lemma {:induction false} NewLotsAreNew(data: map<string, UnitEntry>, keys: seq<string>, existing: set<string>)
    requires forall k :: k in keys ==> k in data
    ensures forall l :: l in NewLots(data, keys, existing) ==> l.id in keys && l.id !in existing && l.estado == "Disponible"
    decreases |keys|
  {
    if |keys| > 0 {
      var p := keys[..|keys| - 1];
      assert forall x :: x in p ==> x in keys;
      NewLotsAreNew(data, p, existing);
    }
  }

  /** Lots the API does not know keep everything; known ones take its status and area and keep the rest. */
  lemma MergeUpdates(data: map<string, UnitEntry>, keys: seq<string>, lots: seq<Lot>, i: nat)
    requires forall k :: k in keys ==> k in data
    requires i < |lots|
    ensures var m := Merged(data, keys, lots);
      i < |m| && m[i].id == lots[i].id && m[i].manzana == lots[i].manzana && m[i].loteNumero == lots[i].loteNumero
      && (lots[i].id !in data ==> m[i] == lots[i])
      && (lots[i].id in data ==>
            m[i].estado == GetLotInfo(data, lots[i].id).value.status && m[i].area == GetLotInfo(data, lots[i].id).value.area)
  {
  }

  /** Step 1 changes no id. */
  lemma UpdatedIds(data: map<string, UnitEntry>, lots: seq<Lot>)
    ensures Ids(UpdateAll(data, lots)) == Ids(lots)
  {
    var u := UpdateAll(data, lots);
    forall l | l in u ensures l.id in Ids(lots) {
      var j :| 0 <= j < |u| && u[j] == l;
      assert lots[j] in lots;
    }
    forall l | l in lots ensures l.id in Ids(u) {
      var j :| 0 <= j < |lots| && lots[j] == l;
      assert u[j] in u;
    }
  }

  /** The store behind `unitsData` and `todosLosLotes`. */
  class LotStore {
    var units: map<string, UnitEntry>
    var keys: seq<string>      // Object.keys(unitsData), in insertion order
    var lots: seq<Lot>

    ghost predicate Valid()
      reads this
    {
      Distinct(keys) && forall k :: k in keys <==> k in units
    }

    constructor (lots0: seq<Lot>)
      ensures Valid() && units == map[] && keys == [] && lots == lots0
    {
      units, keys, lots := map[], [], lots0;
    }

    /** The forEach over one stage's properties. */
    method IngestStage(props: seq<ApiUnit>, stageId: int)
      requires Valid()
      modifies this
      ensures Valid()
      ensures (units, keys) == Ingest(old(units), old(keys), props, stageId) && lots == old(lots)
    {
      var i := 0;
      while i < |props|
        invariant 0 <= i <= |props|
        invariant (units, keys) == Ingest(old(units), old(keys), props[..i], stageId)
        invariant Valid() && lots == old(lots)
      {
        var u := props[i];
        assert props[..i + 1][..i] == props[..i];
        if Kept(u) {
          if u.code.v !in keys {
            AppendFresh(keys, u.code.v);
            keys := keys + [u.code.v];
          }
          units := units[u.code.v := EntryOf(u, stageId)];
        }
        i := i + 1;
      }
      assert props[..|props|] == props;
    }

    /** getUnitsData: unitsData is cleared, then filled stage by stage; a stage that throws ends the
        loop and leaves what the earlier stages stored. `failed` is true when it threw. */
    method GetUnitsData(attempts: seq<Attempt>) returns (failed: bool)
      requires |attempts| == |StageIds|
      modifies this
      ensures Valid()
      ensures (units, keys) == Stages(map[], [], attempts, 0) && lots == old(lots)
      ensures failed <==> exists i :: 0 <= i < |attempts| && StageUnits(attempts[i]).Failure?
                                       && forall j :: 0 <= j < i ==> StageUnits(attempts[j]).Success?
    {
      units, keys := map[], [];
      failed := false;
      var i := 0;
      while i < |StageIds|
        invariant 0 <= i <= |StageIds| && Valid() && lots == old(lots)
        invariant Stages(units, keys, attempts, i) == Stages(map[], [], attempts, 0)
        invariant forall j :: 0 <= j < i ==> StageUnits(attempts[j]).Success?
        decreases |StageIds| - i
      {
        var r := StageUnits(attempts[i]);
        if r.Failure? {
          failed := true;
          return;
        }
        IngestStage(r.value, StageIds[i]);
        i := i + 1;
      }
    }

    /** Step 1: every lot the API knows takes its status and area, in place. */
    method UpdateKnownLots()
      modifies this
      ensures units == old(units) && keys == old(keys)
      ensures lots == UpdateAll(units, old(lots))
    {
      var i := 0;
      while i < |lots|
        invariant 0 <= i <= |lots| == |old(lots)|
        invariant units == old(units) && keys == old(keys)
        invariant forall j :: 0 <= j < i ==> lots[j] == UpdateLot(units, old(lots)[j])
        invariant forall j :: i <= j < |lots| ==> lots[j] == old(lots)[j]
      {
        lots := lots[i := UpdateLot(units, lots[i])];
        i := i + 1;
      }
    }

    /** Step 2: a lot for each API code outside `existingIds`, appended in key order. */
    method AppendMissingLots(existingIds: set<string>)
      requires Valid()
      modifies this
      ensures units == old(units) && keys == old(keys)
      ensures lots == old(lots) + NewLots(units, keys, existingIds)
    {
      var k := 0;
      while k < |keys|
        invariant 0 <= k <= |keys|
        invariant units == old(units) && keys == old(keys)
        invariant forall x :: x in keys[..k] ==> x in units
        invariant lots == old(lots) + NewLots(units, keys[..k], existingIds)
      {
        assert keys[..k + 1][..k] == keys[..k];
        if keys[k] !in existingIds {
          lots := lots + [NewLot(units, keys[k])];
        }
        k := k + 1;
      }
      assert keys[..|keys|] == keys;
    }

    /** The todosLosLotes part of updateExistingPolygons; nothing happens without API data. */
    method MergeIntoLots()
      requires Valid()
      modifies this
      ensures Valid() && units == old(units) && keys == old(keys)
      ensures lots == Merged(units, keys, old(lots))
    {
      if |units| == 0 {
        return;
      }
      UpdateKnownLots();
      var existingIds := Ids(lots);
      UpdatedIds(units, old(lots));
      AppendMissingLots(existingIds);
    }
  }
}
