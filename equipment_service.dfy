/** `EquipmentService` (src/services/equipmentService.ts): the model
    catalogue (access tier, case-insensitive unique names), physical items
    with generated inventory numbers, availability queries and the
    role-to-visible-models mapping. */
module EquipmentService {
  import opened Wrappers
  import opened Text
  import opened Enums
  import opened Records
  import opened Seqs
  import opened Availability
  import opened Store
  import BookingService

  // ---------------------------------------------------------------------------
  // Requests and messages

  /** `CreateEqModelRequestDto`; `attributes` may be absent. */
  datatype CreateEqModelRequest = CreateEqModelRequest(
    name: string,
    description: string,
    category: int,
    osnova: bool,
    attributes: Option<seq<(string, Json)>>)

  /** The columns `createDtoToEqModel` produces. */
  datatype ModelFields = ModelFields(
    name: string,
    description: string,
    category: int,
    attributes: seq<(string, Json)>,
    access: EquipmentAccess)

  const EMPTY_DATA: string := "Данные оборудования не могут быть пустыми"
  const NAME_TAKEN: string := "Оборудование с таким названием уже существует"
  const BAD_ID: string := "Некорректный ID"
  const ID_NOT_POSITIVE: string := "ID должен быть положительным"
  const BAD_MODEL_ID: string := "Некорректный ID модели"
  const MODEL_MISSING: string := "Модель оборудования не найдена"
  const RETRIES_EXHAUSTED: string := "Не удалось создать экземпляр после нескольких попыток"
  const CREATE_FAILED: string := "Не удалось создать экземпляр"
  const UNKNOWN_ROLE: string := "Неизвестная роль пользователя"
  const MAX_ATTEMPTS: nat := 5

  function ModelNotFound(id: int): string
  {
    "Модель оборудования с ID " + IntToString(id) + " не найдена"
  }

  function ItemNotFound(id: int): string
  {
    "Экземпляр оборудования с ID " + IntToString(id) + " не найден"
  }

  function NoItemsForModel(id: int): string
  {
    "Нет экземпляров для модели " + IntToString(id)
  }

  // ---------------------------------------------------------------------------
  // Access tier and the model mapping

  /** The tier chosen from the name and the `osnova` flag. */
  function DeriveAccess(name: string, osnova: bool): (a: EquipmentAccess)
    ensures a == AccessRonin <==> HasSubstring(Lower(name), "ronin")
    ensures a == AccessOsnova ==> osnova
  {
    if HasSubstring(Lower(name), "ronin") then AccessRonin
    else if osnova then AccessOsnova
    else AccessUser
  }

  lemma LowerConcat(a: string, b: string)
    ensures Lower(a + b) == Lower(a) + Lower(b)
  {
  }

  /** A name containing "ronin" in any letter case, anywhere, gives the Ronin
      tier whatever the `osnova` flag says. */
  lemma RoninAnywhere(pre: string, word: string, post: string, osnova: bool)
    requires Lower(word) == "ronin"
    ensures DeriveAccess(pre + word + post, osnova) == AccessRonin
  {
    var s := pre + word + post;
    LowerConcat(pre + word, post);
    LowerConcat(pre, word);
    var l := Lower(s);
    assert l == Lower(pre) + "ronin" + Lower(post);
    assert l[|pre|..|pre| + 5] == "ronin";
    assert OccursAt(l, "ronin", |pre|);
  }

  /** Without "ronin" the flag decides between Osnova and User. */
  lemma TierWithoutRonin(name: string, osnova: bool)
    requires !HasSubstring(Lower(name), "ronin")
    ensures DeriveAccess(name, osnova) == (if osnova then AccessOsnova else AccessUser)
  {
  }

  /** The derived tier does not depend on the letter case of the name. */
  lemma DeriveAccessIgnoresCase(name: string, osnova: bool)
    ensures DeriveAccess(Lower(name), osnova) == DeriveAccess(name, osnova)
  {
    LowerIdempotent(name);
  }

  /** `createDtoToEqModel` (the static and the instance copy are identical). */
  function CreateDtoToEqModel(dto: Option<CreateEqModelRequest>): (r: Result<ModelFields>)
    ensures r.Err? <==> dto.None?
    ensures r.Err? ==> r.error == EMPTY_DATA
    ensures r.Ok? ==> (r.value.name == dto.value.name && r.value.description == dto.value.description
      && r.value.category == dto.value.category
      && r.value.attributes == dto.value.attributes.GetOr([])
      && r.value.access == DeriveAccess(dto.value.name, dto.value.osnova))
  {
    match dto
    case None => Err(EMPTY_DATA)
    case Some(d) =>
      Ok(ModelFields(d.name, d.description, d.category, d.attributes.GetOr([]),
                     DeriveAccess(d.name, d.osnova)))
  }

  function ModelRow(id: int, f: ModelFields): EqModel
  {
    EqModel(id, f.name, f.description, f.category, f.access, f.attributes)
  }

  // ---------------------------------------------------------------------------
  // Names unique ignoring case

  /** No two models have names equal ignoring case: what the existence
      checks of createEquipmentModel protect. */
  predicate NamesUniqueIgnoringCase(models: seq<EqModel>)
  {
    forall k, l :: 0 <= k < l < |models| ==> !EqualsIgnoreCase(models[k].name, models[l].name)
  }

  /** The first model whose name equals `name` ignoring case. */
  function NameClash(models: seq<EqModel>, name: string): (r: Option<nat>)
    ensures r.Some? ==> r.value < |models| && EqualsIgnoreCase(models[r.value].name, name)
    ensures r.None? <==> forall k :: 0 <= k < |models| ==> !EqualsIgnoreCase(models[k].name, name)
  {
    FirstIndex(models, (m: EqModel) => EqualsIgnoreCase(m.name, name))
  }

  /** The first model other than `id` whose name equals `name` ignoring case. */
  function OtherNameClash(models: seq<EqModel>, id: int, name: string): (r: Option<nat>)
    ensures r.Some? ==> r.value < |models| && models[r.value].id != id && EqualsIgnoreCase(models[r.value].name, name)
    ensures r.None? <==> forall k :: 0 <= k < |models| ==> models[k].id == id || !EqualsIgnoreCase(models[k].name, name)
  {
    FirstIndex(models, (m: EqModel) => m.id != id && EqualsIgnoreCase(m.name, name))
  }

  /** `createEquipmentModel` before the insert: the data, then the name. */
  function CreateModelOutcome(models: seq<EqModel>, nextId: int, dto: Option<CreateEqModelRequest>): (r: Result<EqModel>)
    ensures dto.None? ==> r == Err(EMPTY_DATA)
    ensures dto.Some? && NameClash(models, dto.value.name).Some? ==> r == Err(NAME_TAKEN)
    ensures dto.Some? && NameClash(models, dto.value.name).None? ==> r.Ok?
    ensures r.Ok? ==> (r.value.id == nextId && r.value.name == dto.value.name
      && r.value.access == DeriveAccess(dto.value.name, dto.value.osnova)
      && forall k :: 0 <= k < |models| ==> !EqualsIgnoreCase(models[k].name, r.value.name))
  {
    match dto
    case None => Err(EMPTY_DATA)
    case Some(d) =>
      if NameClash(models, d.name).Some? then Err(NAME_TAKEN)
      else Ok(ModelRow(nextId, CreateDtoToEqModel(dto).value))
  }

  /** Creation keeps model names unique ignoring case. */
  lemma CreateKeepsNamesUnique(models: seq<EqModel>, nextId: int, dto: Option<CreateEqModelRequest>)
    requires NamesUniqueIgnoringCase(models)
    requires CreateModelOutcome(models, nextId, dto).Ok?
    ensures NamesUniqueIgnoringCase(models + [CreateModelOutcome(models, nextId, dto).value])
  {
    var m := CreateModelOutcome(models, nextId, dto).value;
    var t := models + [m];
    forall k, l | 0 <= k < l < |t|
      ensures !EqualsIgnoreCase(t[k].name, t[l].name)
    {
      if l == |models| {
        assert t[k] == models[k] && t[l] == m;
      } else {
        assert t[k] == models[k] && t[l] == models[l];
      }
    }
  }

  method CreateEquipmentModel(db: Database, dto: Option<CreateEqModelRequest>) returns (r: Result<EqModel>)
    requires db.Valid()
    modifies db
    ensures db.Valid()
    ensures r == CreateModelOutcome(old(db.models), old(db.nextModelId), dto)
    ensures r.Ok? ==> db.models == old(db.models) + [r.value] && db.nextModelId == old(db.nextModelId) + 1
    ensures r.Err? ==> db.models == old(db.models) && db.nextModelId == old(db.nextModelId)
    ensures db.users == old(db.users) && db.items == old(db.items) && db.bookings == old(db.bookings)
    ensures db.nextUserId == old(db.nextUserId) && db.nextItemId == old(db.nextItemId)
    ensures db.nextBookingId == old(db.nextBookingId) && db.nextBookingItemId == old(db.nextBookingItemId)
  {
    if dto.None? {
      return Err(EMPTY_DATA);
    }
    var existing := NameClash(db.models, dto.value.name);
    if existing.Some? {
      return Err(NAME_TAKEN);
    }
    var fields := CreateDtoToEqModel(dto);
    var m := ModelRow(db.nextModelId, fields.value);
    ModelIdsAppend(db.models, db.nextModelId, m);
    db.models := db.models + [m];
    db.nextModelId := db.nextModelId + 1;
    r := Ok(m);
  }

  /** `getEquipmentModelById`'s guards. */
  function GetEquipmentModelById(models: seq<EqModel>, id: int): (r: Result<EqModel>)
    ensures id <= 0 ==> r == Err(BAD_ID)
    ensures id > 0 && ModelIndex(models, id).None? ==> r == Err(ModelNotFound(id))
    ensures id > 0 && ModelIndex(models, id).Some? ==> r == Ok(models[ModelIndex(models, id).value])
    ensures r.Ok? ==> r.value in models && r.value.id == id
  {
    if id <= 0 then Err(BAD_ID)
    else match ModelIndex(models, id)
      case None => Err(ModelNotFound(id))
      case Some(k) => Ok(models[k])
  }

  /** `updateEquipmentModel` before the write, as written: the clash test
      uses the trimmed name, the stored name is the untrimmed one. The result
      is the new model table. */
  function UpdateModelOutcome(models: seq<EqModel>, id: int, dto: Option<CreateEqModelRequest>): (r: Result<seq<EqModel>>)
    ensures id <= 0 ==> r == Err(ID_NOT_POSITIVE)
    ensures id > 0 && dto.None? ==> r == Err(EMPTY_DATA)
    ensures id > 0 && dto.Some? && ModelIndex(models, id).None? ==> r == Err(ModelNotFound(id))
    ensures (id > 0 && dto.Some? && ModelIndex(models, id).Some?
             && OtherNameClash(models, id, Trim(dto.value.name)).Some?) ==> r == Err(NAME_TAKEN)
    ensures (id > 0 && dto.Some? && ModelIndex(models, id).Some?
             && OtherNameClash(models, id, Trim(dto.value.name)).None?) ==> r.Ok?
    ensures r.Ok? ==> ModelIndex(models, id).Some? && OtherNameClash(models, id, Trim(dto.value.name)).None?
    ensures r.Ok? ==> var k := ModelIndex(models, id).value;
      r.value == models[k := ModelRow(id, CreateDtoToEqModel(dto).value)]
  {
    if id <= 0 then Err(ID_NOT_POSITIVE)
    else if dto.None? then Err(EMPTY_DATA)
    else match ModelIndex(models, id)
      case None => Err(ModelNotFound(id))
      case Some(k) =>
        if OtherNameClash(models, id, Trim(dto.value.name)).Some? then Err(NAME_TAKEN)
        else Ok(models[k := ModelRow(id, CreateDtoToEqModel(dto).value)])
  }

  /** A model may keep its own (trimmed) name: the clash test skips it. */
  lemma UpdateKeepsOwnName(models: seq<EqModel>, nextId: int, id: int, dto: Option<CreateEqModelRequest>)
    requires ModelIdsOk(models, nextId) && NamesUniqueIgnoringCase(models)
    requires id > 0 && dto.Some? && ModelIndex(models, id).Some?
    requires dto.value.name == models[ModelIndex(models, id).value].name && Trim(dto.value.name) == dto.value.name
    ensures UpdateModelOutcome(models, id, dto).Ok?
  {
    var k := ModelIndex(models, id).value;
    forall j | 0 <= j < |models| && models[j].id != id
      ensures !EqualsIgnoreCase(models[j].name, dto.value.name)
    {
      assert j != k;
    }
  }

  /** The recomputed tier follows the new data. */
  lemma UpdateRecomputesAccess(models: seq<EqModel>, id: int, dto: Option<CreateEqModelRequest>)
    requires UpdateModelOutcome(models, id, dto).Ok?
    ensures var k := ModelIndex(models, id).value;
      UpdateModelOutcome(models, id, dto).value[k].access == DeriveAccess(dto.value.name, dto.value.osnova)
  {
  }

  /** As written, an update can store a name equal to another model's: the
      clash test trims the new name, the stored name keeps its spaces. */
  lemma UpdateAdmitsPaddedDuplicate()
    ensures var models := [EqModel(1, " cam", "", 0, AccessUser, []), EqModel(2, "lamp", "", 7, AccessUser, [])];
      var dto := Some(CreateEqModelRequest(" cam", "", 7, false, None));
      && NamesUniqueIgnoringCase(models)
      && UpdateModelOutcome(models, 2, dto).Ok?
      && !NamesUniqueIgnoringCase(UpdateModelOutcome(models, 2, dto).value)
  {
    var models := [EqModel(1, " cam", "", 0, AccessUser, []), EqModel(2, "lamp", "", 7, AccessUser, [])];
    var dto := Some(CreateEqModelRequest(" cam", "", 7, false, None));
    PaddedNameFacts();
    assert ModelIndex(models, 2) == Some(1);
    assert OtherNameClash(models, 2, "cam").None?;
    var after := UpdateModelOutcome(models, 2, dto).value;
    assert after[0].name == " cam" && after[1].name == " cam";
  }

  lemma PaddedNameFacts()
    ensures Trim(" cam") == "cam"
    ensures !EqualsIgnoreCase(" cam", "cam") && !EqualsIgnoreCase("lamp", "cam")
    ensures !EqualsIgnoreCase(" cam", "lamp")
  {
    assert " cam" == [' '] + "cam";
    assert TrimStart(" cam") == "cam" by {
      assert " cam"[1..] == "cam";
    }
    assert |Lower(" cam")| != |Lower("cam")|;
    assert |Lower("lamp")| != |Lower("cam")|;
    assert Lower(" cam")[0] == ' ' && Lower("lamp")[0] == 'l';
  }

  /** The corrected update tests the name as it will be stored, like
      createEquipmentModel does. */
  function UpdateModelOutcomeFixed(models: seq<EqModel>, id: int, dto: Option<CreateEqModelRequest>): (r: Result<seq<EqModel>>)
  {
    if id <= 0 then Err(ID_NOT_POSITIVE)
    else if dto.None? then Err(EMPTY_DATA)
    else match ModelIndex(models, id)
      case None => Err(ModelNotFound(id))
      case Some(k) =>
        if OtherNameClash(models, id, dto.value.name).Some? then Err(NAME_TAKEN)
        else Ok(models[k := ModelRow(id, CreateDtoToEqModel(dto).value)])
  }

  /** The corrected update keeps model names unique ignoring case. */
  lemma FixedUpdateKeepsNamesUnique(models: seq<EqModel>, nextId: int, id: int, dto: Option<CreateEqModelRequest>)
    requires ModelIdsOk(models, nextId) && NamesUniqueIgnoringCase(models)
    requires UpdateModelOutcomeFixed(models, id, dto).Ok?
    ensures NamesUniqueIgnoringCase(UpdateModelOutcomeFixed(models, id, dto).value)
    ensures ModelIdsOk(UpdateModelOutcomeFixed(models, id, dto).value, nextId)
  {
    var k := ModelIndex(models, id).value;
    var t := UpdateModelOutcomeFixed(models, id, dto).value;
    assert t == models[k := ModelRow(id, CreateDtoToEqModel(dto).value)];
    forall a, b | 0 <= a < b < |t|
      ensures !EqualsIgnoreCase(t[a].name, t[b].name)
    {
      if a == k {
        assert models[b].id != id;
      } else if b == k {
        assert models[a].id != id;
      }
    }
  }

  method UpdateEquipmentModel(db: Database, id: int, dto: Option<CreateEqModelRequest>) returns (r: Result<()>)
    requires db.Valid()
    modifies db
    ensures db.Valid()
    ensures var o := UpdateModelOutcome(old(db.models), id, dto);
      && (o.Err? ==> r == Err(o.error) && db.models == old(db.models))
      && (o.Ok? ==> r == Ok(()) && db.models == o.value)
    ensures db.users == old(db.users) && db.items == old(db.items) && db.bookings == old(db.bookings)
    ensures db.nextUserId == old(db.nextUserId) && db.nextModelId == old(db.nextModelId) && db.nextItemId == old(db.nextItemId)
    ensures db.nextBookingId == old(db.nextBookingId) && db.nextBookingItemId == old(db.nextBookingItemId)
  {
    if id <= 0 {
      return Err(ID_NOT_POSITIVE);
    }
    if dto.None? {
      return Err(EMPTY_DATA);
    }
    var k := ModelIndex(db.models, id);
    if k.None? {
      return Err(ModelNotFound(id));
    }
    var clash := OtherNameClash(db.models, id, Trim(dto.value.name));
    if clash.Some? {
      return Err(NAME_TAKEN);
    }
    var fields := CreateDtoToEqModel(dto);
    var row := ModelRow(id, fields.value);
    assert UpdateModelOutcome(db.models, id, dto) == Ok(db.models[k.value := row]);
    ModelIdsReplace(db.models, db.nextModelId, k.value, row);
    db.models := db.models[k.value := row];
    r := Ok(());
  }

  method DeleteEquipmentModel(db: Database, id: int) returns (r: Result<()>)
    requires db.Valid()
    modifies db
    ensures db.Valid()
    ensures ModelIndex(old(db.models), id).None? ==> r == Err(ModelNotFound(id)) && db.models == old(db.models)
    ensures ModelIndex(old(db.models), id).Some? ==>
      var k := ModelIndex(old(db.models), id).value;
      r == Ok(()) && db.models == old(db.models)[..k] + old(db.models)[k + 1..]
    ensures db.users == old(db.users) && db.items == old(db.items) && db.bookings == old(db.bookings)
    ensures db.nextUserId == old(db.nextUserId) && db.nextModelId == old(db.nextModelId) && db.nextItemId == old(db.nextItemId)
    ensures db.nextBookingId == old(db.nextBookingId) && db.nextBookingItemId == old(db.nextBookingItemId)
  {
    var k := ModelIndex(db.models, id);
    if k.None? {
      return Err(ModelNotFound(id));
    }
    ModelIdsRemove(db.models, db.nextModelId, k.value);
    db.models := db.models[..k.value] + db.models[k.value + 1..];
    r := Ok(());
  }

  // ---------------------------------------------------------------------------
  // Inventory numbers

  /** `${category}-${modelId padded to 3}-${n padded to 2}`. */
  function InventoryNumber(category: int, modelId: int, n: nat): string
  {
    IntToString(category) + "-" + PadStart(IntToString(modelId), 3, '0') + "-" + PadStart(NatToString(n), 2, '0')
  }

  lemma NoDashInDigits(s: string)
    requires AllDigits(s)
    ensures '-' !in s
  {
  }

  /** An inventory number splits on '-' into its three fields, which read
      back as the category, the model id and the sequence number. */
  lemma InventoryNumberDecodes(category: nat, modelId: nat, n: nat)
    ensures var parts := Split(InventoryNumber(category, modelId, n), '-');
      && |parts| == 3
      && AllDigits(parts[0]) && AllDigits(parts[1]) && AllDigits(parts[2])
      && DigitsValue(parts[0]) == category
      && DigitsValue(parts[1]) == modelId
      && DigitsValue(parts[2]) == n
  {
    var a := NatToString(category);
    var b := PadStart(NatToString(modelId), 3, '0');
    var c := PadStart(NatToString(n), 2, '0');
    NatToStringValue(category);
    PaddedValue(modelId, 3);
    PaddedValue(n, 2);
    assert InventoryNumber(category, modelId, n) == a + "-" + b + "-" + c;
    NoDashInDigits(a);
    NoDashInDigits(b);
    NoDashInDigits(c);
    SplitThree(a, b, c, '-');
  }

  /** Distinct (category, model, sequence number) triples give distinct
      inventory numbers. */
  lemma InventoryNumberInjective(c1: nat, m1: nat, n1: nat, c2: nat, m2: nat, n2: nat)
    requires InventoryNumber(c1, m1, n1) == InventoryNumber(c2, m2, n2)
    ensures c1 == c2 && m1 == m2 && n1 == n2
  {
    InventoryNumberDecodes(c1, m1, n1);
    InventoryNumberDecodes(c2, m2, n2);
  }

  /** The number of items of a model (`equipmentItem.count`). */
  function CountItems(items: seq<EqItem>, modelId: int): nat
  {
    |Filter(items, (x: EqItem) => x.modelId == modelId)|
  }

  /** The number createEquipmentItem computes on every attempt: the model's
      item count plus one. Nothing between two attempts changes the table, so
      every attempt computes the same number. */
  function CountBasedNumber(items: seq<EqItem>, category: int, modelId: int): string
  {
    InventoryNumber(category, modelId, CountItems(items, modelId) + 1)
  }

  /** The `while (attempts < maxAttempts)` loop of createEquipmentItem from
      attempt `attempts` on, trying the number `inv`. `fault(a)` is the
      error, other than a unique-constraint violation, that the store raises
      on attempt `a`, if any; a unique-constraint violation happens exactly
      when `inv` is in use. */
  function CreateItemLoop(items: seq<EqItem>, modelId: int, inv: string, nextId: int,
                          attempts: nat, fault: nat -> Option<string>): Result<EqItem>
    decreases MAX_ATTEMPTS - attempts
  {
    if attempts >= MAX_ATTEMPTS then Err(CREATE_FAILED)
    else if fault(attempts).Some? then Err(fault(attempts).value)
    else if NumberInUse(items, inv) then
      if attempts + 1 >= MAX_ATTEMPTS then Err(RETRIES_EXHAUSTED)
      else CreateItemLoop(items, modelId, inv, nextId, attempts + 1, fault)
    else Ok(EqItem(nextId, modelId, inv, true))
  }

  /** `createEquipmentItem` as written. */
  function CreateItemOutcome(models: seq<EqModel>, items: seq<EqItem>, nextId: int, modelId: int,
                             fault: nat -> Option<string>): (r: Result<EqItem>)
    ensures ModelIndex(models, modelId).None? ==> r == Err(MODEL_MISSING)
    ensures r.Ok? ==> && ModelIndex(models, modelId).Some?
                      && r.value == EqItem(nextId, modelId, r.value.inventoryNumber, true)
                      && !NumberInUse(items, r.value.inventoryNumber)
  {
    match ModelIndex(models, modelId)
    case None => Err(MODEL_MISSING)
    case Some(k) =>
      var inv := CountBasedNumber(items, models[k].category, modelId);
      var out := CreateItemLoop(items, modelId, inv, nextId, 0, fault);
      if out.Ok? then CreatedItemShape(items, modelId, inv, nextId, 0, fault); out else out
  }

  /** A created item is available, belongs to the model, takes the next
      identifier and carries the tried number, which was unused. */
  lemma {:induction false} CreatedItemShape(items: seq<EqItem>, modelId: int, inv: string, nextId: int,
                                           attempts: nat, fault: nat -> Option<string>)
    requires CreateItemLoop(items, modelId, inv, nextId, attempts, fault).Ok?
    ensures CreateItemLoop(items, modelId, inv, nextId, attempts, fault) == Ok(EqItem(nextId, modelId, inv, true))
    ensures !NumberInUse(items, inv)
    decreases MAX_ATTEMPTS - attempts
  {
    if attempts < MAX_ATTEMPTS && fault(attempts).None? && NumberInUse(items, inv) && attempts + 1 < MAX_ATTEMPTS {
      CreatedItemShape(items, modelId, inv, nextId, attempts + 1, fault);
    }
  }

  datatype EqItemResponseDto = EqItemResponseDto(
    id: int,
    inventoryNumber: string,
    available: bool,
    modelName: string,
    modelCategory: Option<string>)

  /** `eqItemToResponseDto` on an item read with `include: { equipmentModel:
      true }`, so `m` is the item's own model; the category is named by the
      reverse enum lookup, undefined (none) for a code outside 0..8. */
  function EqItemToResponseDto(x: EqItem, m: EqModel): (d: EqItemResponseDto)
    requires m.id == x.modelId
    ensures d.id == x.id && d.inventoryNumber == x.inventoryNumber && d.available == x.available
    ensures d.modelName == m.name
    ensures d.modelCategory.Some? <==> 0 <= m.category <= 8
    ensures d.modelCategory == CategoryName(m.category)
  {
    EqItemResponseDto(x.id, x.inventoryNumber, x.available, m.name, CategoryName(m.category))
  }

  /** What `createEquipmentItem` returns for a created item: the next id,
      an unused number, available, under the model's name and category. */
  lemma CreatedItemDto(models: seq<EqModel>, items: seq<EqItem>, nextId: int, modelId: int,
                       fault: nat -> Option<string>)
    requires CreateItemOutcome(models, items, nextId, modelId, fault).Ok?
    ensures ModelIndex(models, modelId).Some?
    ensures var x := CreateItemOutcome(models, items, nextId, modelId, fault).value;
      var m := models[ModelIndex(models, modelId).value];
      && x.modelId == m.id
      && EqItemToResponseDto(x, m) ==
           EqItemResponseDto(nextId, x.inventoryNumber, true, m.name, CategoryName(m.category))
      && !NumberInUse(items, x.inventoryNumber)
  {
    var k := ModelIndex(models, modelId).value;
    CreatedItemShape(items, modelId, CountBasedNumber(items, models[k].category, modelId), nextId, 0, fault);
  }

  /** Only attempts 0 to 4 are ever made: the outcome depends on the faults
      of those five attempts alone. */
  lemma {:induction false} AtMostFiveAttempts(items: seq<EqItem>, modelId: int, inv: string, nextId: int,
                                             attempts: nat, fault: nat -> Option<string>, fault': nat -> Option<string>)
    requires forall a :: 0 <= a < MAX_ATTEMPTS ==> fault(a) == fault'(a)
    ensures CreateItemLoop(items, modelId, inv, nextId, attempts, fault)
         == CreateItemLoop(items, modelId, inv, nextId, attempts, fault')
    decreases MAX_ATTEMPTS - attempts
  {
    if attempts < MAX_ATTEMPTS {
      AtMostFiveAttempts(items, modelId, inv, nextId, attempts + 1, fault, fault');
    }
  }

  /** Another store error is rethrown at once, whatever later attempts
      would do. */
  lemma OtherErrorRethrown(items: seq<EqItem>, modelId: int, inv: string, nextId: int,
                           attempts: nat, fault: nat -> Option<string>)
    requires attempts < MAX_ATTEMPTS && fault(attempts).Some?
    ensures CreateItemLoop(items, modelId, inv, nextId, attempts, fault) == Err(fault(attempts).value)
  {
  }

  /** A colliding number is retried until the fifth collision, which gives up. */
  lemma {:induction false} CollisionExhaustsAttempts(items: seq<EqItem>, modelId: int, inv: string, nextId: int,
                                                    attempts: nat, fault: nat -> Option<string>)
    requires attempts < MAX_ATTEMPTS && NumberInUse(items, inv)
    requires forall a :: attempts <= a < MAX_ATTEMPTS ==> fault(a).None?
    ensures CreateItemLoop(items, modelId, inv, nextId, attempts, fault) == Err(RETRIES_EXHAUSTED)
    decreases MAX_ATTEMPTS - attempts
  {
    if attempts + 1 < MAX_ATTEMPTS {
      CollisionExhaustsAttempts(items, modelId, inv, nextId, attempts + 1, fault);
    }
  }

  /** The final `throw` after the loop is unreachable: every failure is the
      retry limit or an error the store raised. */
  lemma {:induction false} LoopFailures(items: seq<EqItem>, modelId: int, inv: string, nextId: int,
                                       attempts: nat, fault: nat -> Option<string>)
    requires attempts < MAX_ATTEMPTS
    ensures var r := CreateItemLoop(items, modelId, inv, nextId, attempts, fault);
      r.Err? ==> r.error == RETRIES_EXHAUSTED || exists a :: attempts <= a < MAX_ATTEMPTS && fault(a) == Some(r.error)
    decreases MAX_ATTEMPTS - attempts
  {
    if fault(attempts).None? && NumberInUse(items, inv) && attempts + 1 < MAX_ATTEMPTS {
      LoopFailures(items, modelId, inv, nextId, attempts + 1, fault);
    }
  }

  /** The retry loop of createEquipmentItem on a snapshot of the item
      table: each attempt counts the model's items, builds the number and
      tries the insert. */
  method TryInsertItem(items: seq<EqItem>, modelId: int, category: int, nextId: int, fault: nat -> Option<string>)
    returns (r: Result<EqItem>)
    ensures r == CreateItemLoop(items, modelId, CountBasedNumber(items, category, modelId), nextId, 0, fault)
  {
    var attempts: nat := 0;
    while attempts < MAX_ATTEMPTS
      invariant attempts <= MAX_ATTEMPTS
      invariant CreateItemLoop(items, modelId, CountBasedNumber(items, category, modelId), nextId, 0, fault)
             == CreateItemLoop(items, modelId, CountBasedNumber(items, category, modelId), nextId, attempts, fault)
      decreases MAX_ATTEMPTS - attempts
    {
      var failure := fault(attempts);
      if failure.Some? {
        return Err(failure.value);
      }
      var count := CountItems(items, modelId);
      var inventoryNumber := InventoryNumber(category, modelId, count + 1);
      if NumberInUse(items, inventoryNumber) {
        attempts := attempts + 1;
        if attempts >= MAX_ATTEMPTS {
          return Err(RETRIES_EXHAUSTED);
        }
        continue;
      }
      return Ok(EqItem(nextId, modelId, inventoryNumber, true));
    }
    r := Err(CREATE_FAILED);
  }

  method CreateEquipmentItem(db: Database, modelId: int, fault: nat -> Option<string>) returns (r: Result<EqItem>)
    requires db.Valid()
    modifies db
    ensures db.Valid()
    ensures r == CreateItemOutcome(old(db.models), old(db.items), old(db.nextItemId), modelId, fault)
    ensures r.Ok? ==> db.items == old(db.items) + [r.value] && db.nextItemId == old(db.nextItemId) + 1
    ensures r.Err? ==> db.items == old(db.items) && db.nextItemId == old(db.nextItemId)
    ensures db.users == old(db.users) && db.models == old(db.models) && db.bookings == old(db.bookings)
    ensures db.nextUserId == old(db.nextUserId) && db.nextModelId == old(db.nextModelId)
    ensures db.nextBookingId == old(db.nextBookingId) && db.nextBookingItemId == old(db.nextBookingItemId)
  {
    var k := ModelIndex(db.models, modelId);
    if k.None? {
      return Err(MODEL_MISSING);
    }
    var category := db.models[k.value].category;
    r := TryInsertItem(db.items, modelId, category, db.nextItemId, fault);
    if r.Ok? {
      CreatedItemShape(db.items, modelId, CountBasedNumber(db.items, category, modelId), db.nextItemId, 0, fault);
      db.InsertItem(r.value);
    }
  }

  /** As written: once a non-last item of a model has been deleted, the
      count-based number of the next item is already taken, every attempt
      recomputes the same number, and creation fails. */
  lemma DeletedItemBlocksNumbering()
    ensures var models := [EqModel(1, "Cam", "", 0, AccessUser, [])];
      var items := [EqItem(2, 1, "0-001-02", true)];
      CreateItemOutcome(models, items, 3, 1, (a: nat) => None) == Err(RETRIES_EXHAUSTED)
  {
    var models := [EqModel(1, "Cam", "", 0, AccessUser, [])];
    var items := [EqItem(2, 1, "0-001-02", true)];
    assert ModelIndex(models, 1) == Some(0);
    assert Filter(items, (x: EqItem) => x.modelId == 1) == items;
    assert CountItems(items, 1) == 1;
    assert NatToString(0) == "0" && NatToString(1) == "1" && NatToString(2) == "2";
    assert IntToString(0) == "0" && IntToString(1) == "1";
    assert PadStart("1", 3, '0') == "001";
    assert PadStart("2", 2, '0') == "02";
    assert InventoryNumber(0, 1, 2) == "0-001-02";
    assert NumberInUse(items, "0-001-02");
    assert CountBasedNumber(items, 0, 1) == "0-001-02";
    CollisionExhaustsAttempts(items, 1, "0-001-02", 3, 0, (a: nat) => None);
  }

  // The corrected numbering: one past the highest sequence number in use

  /** The inventory-number prefix of a model. */
  function InventoryPrefix(category: int, modelId: int): string
  {
    IntToString(category) + "-" + PadStart(IntToString(modelId), 3, '0') + "-"
  }

  /** The sequence number of `inv` under `prefix`, or 0 if it has another form. */
  function SequenceOf(inv: string, prefix: string): nat
  {
    if StartsWith(inv, prefix) && AllDigits(inv[|prefix|..]) then DigitsValue(inv[|prefix|..]) else 0
  }

  function MaxSequence(items: seq<EqItem>, prefix: string): (m: nat)
    ensures forall k :: 0 <= k < |items| ==> SequenceOf(items[k].inventoryNumber, prefix) <= m
  {
    if items == [] then 0
    else
      var rest := MaxSequence(items[1..], prefix);
      assert forall k :: 1 <= k < |items| ==> items[k] == items[1..][k - 1];
      var here := SequenceOf(items[0].inventoryNumber, prefix);
      if here > rest then here else rest
  }

  /** The corrected next sequence number. */
  function NextSequence(items: seq<EqItem>, category: int, modelId: int): nat
  {
    MaxSequence(items, InventoryPrefix(category, modelId)) + 1
  }

  /** The corrected number is never in use. */
  lemma NextSequenceIsFree(items: seq<EqItem>, category: int, modelId: int)
    ensures !NumberInUse(items, InventoryNumber(category, modelId, NextSequence(items, category, modelId)))
  {
    var prefix := InventoryPrefix(category, modelId);
    var n := NextSequence(items, category, modelId);
    var padded := PadStart(NatToString(n), 2, '0');
    var inv := InventoryNumber(category, modelId, n);
    assert inv == prefix + padded;
    PaddedValue(n, 2);
    assert inv[|prefix|..] == padded;
    assert StartsWith(inv, prefix);
    assert SequenceOf(inv, prefix) == n;
    forall k | 0 <= k < |items|
      ensures items[k].inventoryNumber != inv
    {
      assert SequenceOf(items[k].inventoryNumber, prefix) < n;
    }
  }

  /** `createEquipmentItem` with the corrected numbering. */
  function CreateItemOutcomeFixed(models: seq<EqModel>, items: seq<EqItem>, nextId: int, modelId: int,
                                  fault: nat -> Option<string>): Result<EqItem>
  {
    match ModelIndex(models, modelId)
    case None => Err(MODEL_MISSING)
    case Some(k) =>
      if fault(0).Some? then Err(fault(0).value)
      else
        var category := models[k].category;
        Ok(EqItem(nextId, modelId, InventoryNumber(category, modelId, NextSequence(items, category, modelId)), true))
  }

  /** With the corrected numbering creation succeeds on the first attempt
      unless the store fails otherwise, and keeps inventory numbers unique. */
  lemma FixedCreationSucceeds(models: seq<EqModel>, items: seq<EqItem>, nextId: int, modelId: int,
                              fault: nat -> Option<string>)
    requires ItemIdsOk(items, nextId) && nextId > 0
    requires ModelIndex(models, modelId).Some? && fault(0).None?
    ensures CreateItemOutcomeFixed(models, items, nextId, modelId, fault).Ok?
    ensures ItemIdsOk(items + [CreateItemOutcomeFixed(models, items, nextId, modelId, fault).value], nextId + 1)
  {
    var k := ModelIndex(models, modelId).value;
    NextSequenceIsFree(items, models[k].category, modelId);
    ItemIdsAppend(items, nextId, CreateItemOutcomeFixed(models, items, nextId, modelId, fault).value);
  }

  // ---------------------------------------------------------------------------
  // Item queries and updates

  function GetEquipmentItemById(items: seq<EqItem>, id: int): (r: Result<EqItem>)
    ensures id <= 0 ==> r == Err(BAD_ID)
    ensures id > 0 && ItemIndex(items, id).None? ==> r == Err(ItemNotFound(id))
    ensures id > 0 && ItemIndex(items, id).Some? ==> r == Ok(items[ItemIndex(items, id).value])
    ensures r.Ok? ==> r.value in items && r.value.id == id
  {
    if id <= 0 then Err(BAD_ID)
    else match ItemIndex(items, id)
      case None => Err(ItemNotFound(id))
      case Some(k) => Ok(items[k])
  }

  function GetEquipmentItemsByModel(models: seq<EqModel>, items: seq<EqItem>, modelId: int): (r: Result<seq<EqItem>>)
    ensures ModelIndex(models, modelId).None? ==> r == Err(ModelNotFound(modelId))
    ensures (ModelIndex(models, modelId).Some? && forall x :: x in items ==> x.modelId != modelId) ==>
      r == Err(NoItemsForModel(modelId))
    ensures (ModelIndex(models, modelId).Some? && exists x :: x in items && x.modelId == modelId) ==> r.Ok?
    ensures r.Ok? ==> |r.value| > 0 && forall x :: x in r.value <==> x in items && x.modelId == modelId
  {
    if ModelIndex(models, modelId).None? then Err(ModelNotFound(modelId))
    else
      var mine := Filter(items, (x: EqItem) => x.modelId == modelId);
      if |mine| == 0 then Err(NoItemsForModel(modelId)) else Ok(mine)
  }

  method DeleteEquipmentItem(db: Database, id: int) returns (r: Result<()>)
    requires db.Valid()
    modifies db
    ensures db.Valid()
    ensures ItemIndex(old(db.items), id).None? ==> r == Err(ItemNotFound(id)) && db.items == old(db.items)
    ensures ItemIndex(old(db.items), id).Some? ==>
      var k := ItemIndex(old(db.items), id).value;
      r == Ok(()) && db.items == old(db.items)[..k] + old(db.items)[k + 1..]
    ensures db.users == old(db.users) && db.models == old(db.models) && db.bookings == old(db.bookings)
    ensures db.nextUserId == old(db.nextUserId) && db.nextModelId == old(db.nextModelId) && db.nextItemId == old(db.nextItemId)
    ensures db.nextBookingId == old(db.nextBookingId) && db.nextBookingItemId == old(db.nextBookingItemId)
  {
    var k := ItemIndex(db.items, id);
    if k.None? {
      return Err(ItemNotFound(id));
    }
    ItemIdsRemove(db.items, db.nextItemId, k.value);
    db.items := db.items[..k.value] + db.items[k.value + 1..];
    r := Ok(());
  }

  /** `getAvailableEquipmentItemsByModel`: the guards, then every free item
      of the model with no count bound. */
  function GetAvailableEquipmentItemsByModel(models: seq<EqModel>, items: seq<EqItem>, bookings: seq<Booking>,
                                             modelId: int, start: int, end: int): (r: Result<seq<EqItem>>)
    ensures modelId <= 0 ==> r == Err(BAD_MODEL_ID)
    ensures modelId > 0 && start >= end ==> r == Err(BookingService.BAD_WINDOW)
    ensures modelId > 0 && start < end && ModelIndex(models, modelId).None? ==> r == Err(ModelNotFound(modelId))
    ensures (modelId > 0 && start < end && ModelIndex(models, modelId).Some?) ==>
      r == Ok(FreeItems(items, modelId, bookings, start, end))
    ensures r.Ok? ==> forall x :: x in r.value <==> x in items && IsFree(x, modelId, bookings, start, end)
  {
    if modelId <= 0 then Err(BAD_MODEL_ID)
    else if start >= end then Err(BookingService.BAD_WINDOW)
    else if ModelIndex(models, modelId).None? then Err(ModelNotFound(modelId))
    else Ok(FreeItems(items, modelId, bookings, start, end))
  }

  /** What booking allocates for a model is the head of what this query
      lists for it. */
  lemma BookingTakesPrefixOfListing(models: seq<EqModel>, items: seq<EqItem>, bookings: seq<Booking>,
                                    modelId: int, start: int, end: int, count: nat)
    requires GetAvailableEquipmentItemsByModel(models, items, bookings, modelId, start, end).Ok?
    ensures var listed := GetAvailableEquipmentItemsByModel(models, items, bookings, modelId, start, end).value;
      var taken := GetAvailableItems(items, modelId, bookings, start, end, count);
      |taken| <= |listed| && taken == listed[..|taken|]
  {
  }

  /** `toggleAvailability`'s update on the item table. */
  function ToggleAt(items: seq<EqItem>, k: nat): (r: seq<EqItem>)
    requires k < |items|
    ensures |r| == |items| && r[k].available == !items[k].available
    ensures r[k].(available := items[k].available) == items[k]
    ensures forall i :: 0 <= i < |items| && i != k ==> r[i] == items[i]
  {
    items[k := items[k].(available := !items[k].available)]
  }

  /** Two toggles restore the table. */
  lemma ToggleTwice(items: seq<EqItem>, k: nat)
    requires k < |items|
    ensures ToggleAt(ToggleAt(items, k), k) == items
  {
  }

  method ToggleAvailability(db: Database, id: int) returns (r: Result<()>)
    requires db.Valid()
    modifies db
    ensures db.Valid()
    ensures ItemIndex(old(db.items), id).None? ==> r == Err(ItemNotFound(id)) && db.items == old(db.items)
    ensures ItemIndex(old(db.items), id).Some? ==>
      r == Ok(()) && db.items == ToggleAt(old(db.items), ItemIndex(old(db.items), id).value)
    ensures db.users == old(db.users) && db.models == old(db.models) && db.bookings == old(db.bookings)
    ensures db.nextUserId == old(db.nextUserId) && db.nextModelId == old(db.nextModelId) && db.nextItemId == old(db.nextItemId)
    ensures db.nextBookingId == old(db.nextBookingId) && db.nextBookingItemId == old(db.nextBookingItemId)
  {
    var k := ItemIndex(db.items, id);
    if k.None? {
      return Err(ItemNotFound(id));
    }
    db.items := ToggleAt(db.items, k.value);
    r := Ok(());
  }

  // ---------------------------------------------------------------------------
  // Models visible to a user

  /** The `switch (user.role)` of getAvailableToMe: roles 3 and 4 see all,
      role 2 the User and Osnova tiers, role 1 the User tier; others fail. */
  function VisibleModels(models: seq<EqModel>, role: int): Result<seq<EqModel>>
  {
    if role == 4 || role == 3 then Ok(models)
    else if role == 2 then Ok(Filter(models, (m: EqModel) => m.access == AccessUser || m.access == AccessOsnova))
    else if role == 1 then Ok(Filter(models, (m: EqModel) => m.access == AccessUser))
    else Err(UNKNOWN_ROLE)
  }

  function GetAvailableToMe(users: seq<User>, models: seq<EqModel>, userId: int): (r: Result<seq<EqModel>>)
    ensures UserIndex(users, userId).None? ==> r == Err(BookingService.USER_NOT_FOUND)
    ensures UserIndex(users, userId).Some? ==> r == VisibleModels(models, users[UserIndex(users, userId).value].role)
  {
    match UserIndex(users, userId)
    case None => Err(BookingService.USER_NOT_FOUND)
    case Some(k) => VisibleModels(models, users[k].role)
  }

  /** For each role, which tiers are listed. */
  lemma VisibilityByRole(models: seq<EqModel>, role: int, m: EqModel)
    ensures (role == 3 || role == 4) ==> VisibleModels(models, role) == Ok(models)
    ensures role == 2 ==> (m in VisibleModels(models, role).value <==> m in models && m.access != AccessRonin)
    ensures role == 1 ==> (m in VisibleModels(models, role).value <==> m in models && m.access == AccessUser)
    ensures (role <= 0 || role > 4) ==> VisibleModels(models, role) == Err(UNKNOWN_ROLE)
  {
  }

  /** As written the two services disagree: role 2 may book a Ronin-tier
      model but is not shown it, and role 0 may book User-tier models but
      cannot list any. */
  lemma ListingAndBookingDisagree(m: EqModel, name: string)
    requires m.access == AccessRonin
    ensures BookingService.AccessDenied(ROLE_RONIN, m.access, name).None?
    ensures m !in VisibleModels([m], ROLE_RONIN).value
    ensures BookingService.AccessDenied(ROLE_USER, AccessUser, name).None?
    ensures VisibleModels([m], ROLE_USER).Err?
  {
  }
}
