/**
  The command-file descriptor of the bot: validation of a raw `data` dict
  (`CommandData`), its accessors, and the loader that turns discovered
  command units into message handlers with their trigger lists.
 */
module Command {
  import opened Wrappers
  import opened PyValues

  /** A command file's raw `data` dict. */
  type Dict = map<string, PyVal>

  /** One entry of `MANDATORY_FIELD` / `OPTIONAL_FIELD`: a key and its exact type. */
  datatype FieldSpec = FieldSpec(name: string, required: PyType)

  /** Checked in this order, every one before any optional field. */
  const MandatoryFields: seq<FieldSpec> := [
    FieldSpec("name", StrType),
    FieldSpec("description", StrType),
    FieldSpec("usage", StrType),
    FieldSpec("execute", FunctionType)
  ]

  const OptionalFields: seq<FieldSpec> := [
    FieldSpec("alias", ListType),
    FieldSpec("example", StrType),
    FieldSpec("category", StrType)
  ]

  /** The exceptions construction can raise. */
  datatype CommandError =
      /** `data["name"]` read by the log line when the key is absent. */
    | KeyError(key: string)
      /** A mandatory field that is absent or falsy. */
    | MissingField(commandPath: string, field: string)
      /** A truthy field whose `type(...)` is not exactly the required one. */
    | WrongType(commandPath: string, field: string, expected: PyType, actual: PyType)

  /** A constructed descriptor: the dict it was given and the file it came from. */
  datatype CommandData = CommandData(data: Dict, commandPath: string)

  /** `data.get(key)`: `None` when the key is absent. */
  function Get(data: Dict, key: string): PyVal {
    if key in data then data[key] else PNone
  }

  /** `data.get(key, default)`. */
  function GetOr(data: Dict, key: string, default: PyVal): PyVal {
    if key in data then data[key] else default
  }

  /** `data[key]`, which raises `KeyError` for an absent key. */
  function Subscript(data: Dict, key: string): (r: Result<PyVal, CommandError>)
    ensures r.Success? <==> key in data
    ensures r.Success? ==> r.value == data[key] && Get(data, key) == r.value
    ensures r.Failure? ==> r.error == KeyError(key) && Get(data, key) == PNone
  {
    if key in data then Success(data[key]) else Failure(KeyError(key))
  }

  // ---------------------------------------------------------------------------
  // The declarative reading of the schema

  /** A mandatory field is acceptable when truthy and of exactly its type. */
  predicate MandatoryOk(data: Dict, f: FieldSpec) {
    Truthy(Get(data, f.name)) && TypeOf(Get(data, f.name)) == f.required
  }

  /** An optional field is acceptable when falsy or of exactly its type. */
  predicate OptionalOk(data: Dict, f: FieldSpec) {
    !Truthy(Get(data, f.name)) || TypeOf(Get(data, f.name)) == f.required
  }

  /** Every field of both tables is acceptable. */
  predicate Sane(data: Dict) {
    && (forall i | 0 <= i < |MandatoryFields| :: MandatoryOk(data, MandatoryFields[i]))
    && (forall i | 0 <= i < |OptionalFields| :: OptionalOk(data, OptionalFields[i]))
  }

  /** The error `_is_correct_type` raises for field `f`. */
  function TypeMismatch(data: Dict, path: string, f: FieldSpec): CommandError {
    WrongType(path, f.name, f.required, TypeOf(Get(data, f.name)))
  }

  /** The error a failing mandatory field raises: absence wins over type. */
  function MandatoryError(data: Dict, path: string, f: FieldSpec): CommandError
    requires !MandatoryOk(data, f)
  {
    if !Truthy(Get(data, f.name)) then MissingField(path, f.name) else TypeMismatch(data, path, f)
  }

  // ---------------------------------------------------------------------------
  // sanity_check as written: two loops over the field tables

  /** `_is_correct_type`: raises unless `type(data.get(f))` is exactly the required type. */
  function IsCorrectType(data: Dict, path: string, f: FieldSpec): (r: Outcome<CommandError>)
    ensures r.Pass? <==> TypeOf(Get(data, f.name)) == f.required
    ensures r.Fail? ==> r.error.WrongType? && r.error.commandPath == path && r.error.field == f.name
    ensures r.Fail? ==> r.error.expected == f.required && r.error.actual == TypeOf(Get(data, f.name))
  {
    if TypeOf(Get(data, f.name)) != f.required then Fail(TypeMismatch(data, path, f)) else Pass
  }

  /** The mandatory-field loop; the first failing field decides the error. */
  function CheckMandatory(data: Dict, path: string, fields: seq<FieldSpec>): (r: Outcome<CommandError>)
    ensures r.Pass? <==> forall i | 0 <= i < |fields| :: MandatoryOk(data, fields[i])
    ensures r.Fail? ==>
      (exists i :: 0 <= i < |fields| && !MandatoryOk(data, fields[i])
         && (forall j | 0 <= j < i :: MandatoryOk(data, fields[j]))
         && r.error == MandatoryError(data, path, fields[i]))
  {
    if |fields| == 0 then Pass
    else if !Truthy(Get(data, fields[0].name)) then Fail(MissingField(path, fields[0].name))
    else match IsCorrectType(data, path, fields[0])
      case Fail(e) => Fail(e)
      case Pass =>
        CheckMandatory(data, path, fields[1..])
  }

  /** The optional-field loop: only truthy fields are type-checked. */
  function CheckOptional(data: Dict, path: string, fields: seq<FieldSpec>): (r: Outcome<CommandError>)
    ensures r.Pass? <==> forall i | 0 <= i < |fields| :: OptionalOk(data, fields[i])
    ensures r.Fail? ==>
      (exists i :: 0 <= i < |fields| && !OptionalOk(data, fields[i])
         && (forall j | 0 <= j < i :: OptionalOk(data, fields[j]))
         && r.error == TypeMismatch(data, path, fields[i]))
  {
    if |fields| == 0 then Pass
    else if Truthy(Get(data, fields[0].name)) && IsCorrectType(data, path, fields[0]).Fail? then
      IsCorrectType(data, path, fields[0])
    else
      CheckOptional(data, path, fields[1..])
  }

  /** Does `name` belong to the mandatory table? */
  predicate IsMandatoryName(name: string) {
    exists i :: 0 <= i < |MandatoryFields| && MandatoryFields[i].name == name
  }

  /** `sanity_check`: mandatory fields first, then optional ones. */
  function SanityCheck(data: Dict, path: string): (r: Outcome<CommandError>)
    ensures r.Pass? <==> Sane(data)
    ensures r.Fail? ==> !r.error.KeyError? && r.error.commandPath == path
    ensures r.Fail? ==> (IsMandatoryName(r.error.field) <==>
      exists i :: 0 <= i < |MandatoryFields| && !MandatoryOk(data, MandatoryFields[i]))
  {
    match CheckMandatory(data, path, MandatoryFields)
    case Fail(e) => Fail(e)
    case Pass => CheckOptional(data, path, OptionalFields)
  }

  /**
    `CommandData(data, command_path)`: the log line reads `data["name"]`
    before any validation, then `sanity_check` runs; the dict is stored as is.
   */
  function Construct(data: Dict, path: string): (r: Result<CommandData, CommandError>)
    ensures "name" !in data ==> r == Failure(KeyError("name"))
    ensures r.Success? <==> Sane(data)
    ensures r.Success? ==> r.value.data == data && r.value.commandPath == path
    ensures r.Failure? && "name" in data ==> !r.error.KeyError? && r.error.commandPath == path
  {
    if "name" !in data then
      assert !MandatoryOk(data, MandatoryFields[0]);
      Failure(KeyError("name"))
    else match SanityCheck(data, path)
      case Fail(e) => Failure(e)
      case Pass => Success(CommandData(data, path))
  }

  // ---------------------------------------------------------------------------
  // Accessors

  /** `raw_data`: the dict exactly as it was handed to the constructor. */
  function RawData(c: CommandData): (r: Dict)
    ensures r == c.data
    ensures Sane(c.data) ==> "name" in r && "execute" in r
  {
    assert Sane(c.data) ==> MandatoryOk(c.data, MandatoryFields[0]) && MandatoryOk(c.data, MandatoryFields[3]);
    c.data
  }

  /** `name`: the stored name; on a validated descriptor a non-empty string. */
  function Name(c: CommandData): (r: Result<PyVal, CommandError>)
    ensures r.Success? <==> "name" in c.data
    ensures r.Success? ==> r.value == c.data["name"]
    ensures r.Failure? ==> r.error == KeyError("name")
    ensures Sane(c.data) ==> r.Success? && r.value.PStr? && r.value.s != ""
  {
    assert Sane(c.data) ==> MandatoryOk(c.data, MandatoryFields[0]);
    Subscript(c.data, "name")
  }

  /** `description`: the stored description; on a validated descriptor a non-empty string. */
  function Description(c: CommandData): (r: Result<PyVal, CommandError>)
    ensures r.Success? <==> "description" in c.data
    ensures r.Success? ==> r.value == c.data["description"]
    ensures r.Failure? ==> r.error == KeyError("description")
    ensures Sane(c.data) ==> r.Success? && r.value.PStr? && r.value.s != ""
  {
    assert Sane(c.data) ==> MandatoryOk(c.data, MandatoryFields[1]);
    Subscript(c.data, "description")
  }

  /** `usage`: the stored usage line; on a validated descriptor a non-empty string. */
  function Usage(c: CommandData): (r: Result<PyVal, CommandError>)
    ensures r.Success? <==> "usage" in c.data
    ensures r.Success? ==> r.value == c.data["usage"]
    ensures r.Failure? ==> r.error == KeyError("usage")
    ensures Sane(c.data) ==> r.Success? && r.value.PStr? && r.value.s != ""
  {
    assert Sane(c.data) ==> MandatoryOk(c.data, MandatoryFields[2]);
    Subscript(c.data, "usage")
  }

  /** `execute`: the stored handler; on a validated descriptor a plain function. */
  function Execute(c: CommandData): (r: Result<PyVal, CommandError>)
    ensures r.Success? <==> "execute" in c.data
    ensures r.Success? ==> r.value == c.data["execute"]
    ensures r.Failure? ==> r.error == KeyError("execute")
    ensures Sane(c.data) ==> r.Success? && r.value.PFunc?
  {
    assert Sane(c.data) ==> MandatoryOk(c.data, MandatoryFields[3]);
    Subscript(c.data, "execute")
  }

  /** `alias`: `[]` when absent, else as stored, even when falsy; a truthy one is a list on a validated descriptor. */
  function Alias(c: CommandData): (r: PyVal)
    ensures "alias" !in c.data ==> r == PList([])
    ensures "alias" in c.data ==> r == c.data["alias"]
    ensures Sane(c.data) && Truthy(r) ==> r.PList?
  {
    assert Sane(c.data) ==> OptionalOk(c.data, OptionalFields[0]);
    GetOr(c.data, "alias", PList([]))
  }

  /** `example`: `""` when absent, else as stored; a truthy one is a string on a validated descriptor. */
  function Example(c: CommandData): (r: PyVal)
    ensures "example" !in c.data ==> r == PStr("")
    ensures "example" in c.data ==> r == c.data["example"]
    ensures Sane(c.data) && Truthy(r) ==> r.PStr?
  {
    assert Sane(c.data) ==> OptionalOk(c.data, OptionalFields[1]);
    GetOr(c.data, "example", PStr(""))
  }

  /** `category`: `""` when absent, else as stored; a truthy one is a string on a validated descriptor. */
  function Category(c: CommandData): (r: PyVal)
    ensures "category" !in c.data ==> r == PStr("")
    ensures "category" in c.data ==> r == c.data["category"]
    ensures Sane(c.data) && Truthy(r) ==> r.PStr?
  {
    assert Sane(c.data) ==> OptionalOk(c.data, OptionalFields[2]);
    GetOr(c.data, "category", PStr(""))
  }

  /** The dict a descriptor was constructed from, read back. */
  lemma ConstructedAccessors(data: Dict, path: string)
    requires Construct(data, path).Success?
    ensures var c := Construct(data, path).value;
      && RawData(c) == data
      && "name" in data && "description" in data && "usage" in data && "execute" in data
      && Name(c) == Success(data["name"]) && data["name"].PStr? && data["name"].s != ""
      && Description(c) == Success(data["description"]) && data["description"].PStr?
      && Usage(c) == Success(data["usage"]) && data["usage"].PStr?
      && Execute(c) == Success(data["execute"]) && data["execute"].PFunc?
  {
    assert MandatoryOk(data, MandatoryFields[0]);
    assert MandatoryOk(data, MandatoryFields[1]);
    assert MandatoryOk(data, MandatoryFields[2]);
    assert MandatoryOk(data, MandatoryFields[3]);
  }

  // ---------------------------------------------------------------------------
  // Properties of validation

  /**
    When the mandatory fields before field `k` are acceptable and field `k`
    is falsy, construction reports field `k` as missing.
   */
  lemma FirstFalsyMandatoryIsMissing(data: Dict, path: string, k: nat)
    requires "name" in data
    requires k < |MandatoryFields|
    requires forall j | 0 <= j < k :: MandatoryOk(data, MandatoryFields[j])
    requires !Truthy(Get(data, MandatoryFields[k].name))
    ensures Construct(data, path) == Failure(MissingField(path, MandatoryFields[k].name))
  {
    FirstMandatoryFailureDecides(data, path, k);
  }

  /**
    When the mandatory fields before field `k` are acceptable and field `k`
    is truthy but of another type, construction names the field, the
    expected type and the actual type.
   */
  lemma FirstMistypedMandatoryIsWrongType(data: Dict, path: string, k: nat)
    requires "name" in data
    requires k < |MandatoryFields|
    requires forall j | 0 <= j < k :: MandatoryOk(data, MandatoryFields[j])
    requires Truthy(Get(data, MandatoryFields[k].name))
    requires TypeOf(Get(data, MandatoryFields[k].name)) != MandatoryFields[k].required
    ensures Construct(data, path) == Failure(WrongType(path, MandatoryFields[k].name,
      MandatoryFields[k].required, TypeOf(Get(data, MandatoryFields[k].name))))
  {
    FirstMandatoryFailureDecides(data, path, k);
  }

  /** The first failing mandatory field decides the error, before any optional field is looked at. */
  lemma FirstMandatoryFailureDecides(data: Dict, path: string, k: nat)
    requires "name" in data
    requires k < |MandatoryFields|
    requires forall j | 0 <= j < k :: MandatoryOk(data, MandatoryFields[j])
    requires !MandatoryOk(data, MandatoryFields[k])
    ensures Construct(data, path) == Failure(MandatoryError(data, path, MandatoryFields[k]))
  {
    var r := CheckMandatory(data, path, MandatoryFields);
    assert r.Fail?;
    var i :| 0 <= i < |MandatoryFields| && !MandatoryOk(data, MandatoryFields[i])
      && (forall j | 0 <= j < i :: MandatoryOk(data, MandatoryFields[j]))
      && r.error == MandatoryError(data, path, MandatoryFields[i]);
    assert i == k;
  }

  /**
    With every mandatory field acceptable, an optional field that is falsy
    (`[]`, `None`, `0`, `""`, absent) is never type-checked.
   */
  lemma FalsyOptionalsAccepted(data: Dict, path: string)
    requires forall j | 0 <= j < |MandatoryFields| :: MandatoryOk(data, MandatoryFields[j])
    requires forall j | 0 <= j < |OptionalFields| :: !Truthy(Get(data, OptionalFields[j].name))
    ensures Construct(data, path).Success?
  {
    assert MandatoryOk(data, MandatoryFields[0]);
  }

  /**
    With every mandatory field acceptable, a truthy optional field of the
    wrong type is rejected when the optional fields before it are fine.
   */
  lemma FirstMistypedOptionalIsWrongType(data: Dict, path: string, k: nat)
    requires forall j | 0 <= j < |MandatoryFields| :: MandatoryOk(data, MandatoryFields[j])
    requires k < |OptionalFields|
    requires forall j | 0 <= j < k :: OptionalOk(data, OptionalFields[j])
    requires !OptionalOk(data, OptionalFields[k])
    ensures Construct(data, path) == Failure(TypeMismatch(data, path, OptionalFields[k]))
  {
    assert MandatoryOk(data, MandatoryFields[0]);
    var r := CheckOptional(data, path, OptionalFields);
    assert r.Fail?;
    var i :| 0 <= i < |OptionalFields| && !OptionalOk(data, OptionalFields[i])
      && (forall j | 0 <= j < i :: OptionalOk(data, OptionalFields[j]))
      && r.error == TypeMismatch(data, path, OptionalFields[i]);
    assert i == k;
  }

  // ---------------------------------------------------------------------------
  // Triggers and the loader

  /**
    The trigger list of a constructed descriptor: its name, then its aliases
    in order when `alias` is truthy. The alias elements are not type-checked
    and nothing checks them for duplicates.
   */
  function Triggers(c: CommandData): (r: seq<PyVal>)
    requires Sane(c.data)
    ensures |r| >= 1 && r[0] == c.data["name"]
    ensures "alias" in c.data && c.data["alias"].PList? ==> r[1..] == c.data["alias"].items
    ensures "alias" !in c.data || !Truthy(c.data["alias"]) ==> r == [c.data["name"]]
  {
    assert MandatoryOk(c.data, MandatoryFields[0]);
    var alias := Alias(c);
    if Truthy(alias) then
      assert OptionalOk(c.data, OptionalFields[0]);
      [c.data["name"]] + alias.items
    else
      [c.data["name"]]
  }

  /** A discovered command file: its file name and its `data` attribute, if any. */
  datatype CommandUnit = CommandUnit(fileName: string, data: Option<Dict>)

  /** `MessageHandler(execute, filters.command(triggers))` handed to the client. */
  datatype Handler = Handler(callback: PyVal, triggers: seq<PyVal>)

  /** The returned command list together with the handlers registered on the way. */
  datatype Registered = Registered(commands: seq<CommandData>, handlers: seq<Handler>)

  /** Registration of one constructed descriptor. */
  function HandlerOf(c: CommandData): (r: Handler)
    requires Sane(c.data)
    ensures Execute(c) == Success(r.callback) && r.callback.PFunc?
    ensures r.triggers == Triggers(c) && Name(c) == Success(r.triggers[0]) && r.triggers[0].PStr?
  {
    assert MandatoryOk(c.data, MandatoryFields[0]);
    assert MandatoryOk(c.data, MandatoryFields[3]);
    Handler(c.data["execute"], Triggers(c))
  }

  /** Has no unit of `units` a `data` attribute? */
  predicate NoData(units: seq<CommandUnit>) {
    forall i | 0 <= i < |units| :: units[i].data.None?
  }

  /** Unit `k` is the first unit with a `data` attribute. */
  predicate FirstDataAt(units: seq<CommandUnit>, k: int) {
    && 0 <= k < |units|
    && units[k].data.Some?
    && forall j | 0 <= j < k :: units[j].data.None?
  }

  /** What the loop body does with the first unit that has `data`, ending in its `return`. */
  function RegisterFirst(u: CommandUnit): (r: Result<Option<Registered>, CommandError>)
    requires u.data.Some?
    ensures r.Success? <==> Sane(u.data.value)
    ensures r.Failure? ==> r.error == Construct(u.data.value, u.fileName).error
    ensures r.Success? ==> r.value.Some? && |r.value.value.commands| == 1
    ensures r.Success? ==> var c := r.value.value.commands[0];
      && c.data == u.data.value && c.commandPath == u.fileName
      && r.value.value.handlers == [HandlerOf(c)]
  {
    match Construct(u.data.value, u.fileName)
    case Failure(e) => Failure(e)
    case Success(c) => Success(Some(Registered([c], [HandlerOf(c)])))
  }

  /**
    `load_commands` as written: units without `data` are skipped, and the
    loop body ends in `return`, so the first unit with `data` is the only one
    constructed and registered, and no later unit is even validated; with no
    such unit the function falls off its end and returns `None`.
   */
  function LoadCommands(units: seq<CommandUnit>): (r: Result<Option<Registered>, CommandError>)
    ensures NoData(units) <==> r == Success(None)
    ensures forall k | FirstDataAt(units, k) ::
      && (r.Success? <==> Sane(units[k].data.value))
      && (r.Failure? ==> r == Failure(Construct(units[k].data.value, units[k].fileName).error))
      && (r.Success? ==> r == Success(Some(Registered(
           [CommandData(units[k].data.value, units[k].fileName)],
           [HandlerOf(CommandData(units[k].data.value, units[k].fileName))]))))
  {
    if |units| == 0 then Success(None)
    else if units[0].data.None? then
      var r := LoadCommands(units[1..]);
      assert NoData(units) <==> NoData(units[1..]);
      assert forall k | FirstDataAt(units, k) :: FirstDataAt(units[1..], k - 1) && units[k] == units[1..][k - 1];
      r
    else
      assert forall k | FirstDataAt(units, k) :: k == 0;
      RegisterFirst(units[0])
  }

  /** Some unit has `data` exactly when there is a first one. */
  lemma {:induction false} FirstDataExists(units: seq<CommandUnit>)
    ensures !NoData(units) <==> exists k :: FirstDataAt(units, k)
  {
    if |units| > 0 && units[0].data.None? {
      FirstDataExists(units[1..]);
      if !NoData(units) {
        var j :| 0 <= j < |units| && units[j].data.Some?;
        assert units[1..][j - 1] == units[j];
        var k :| FirstDataAt(units[1..], k);
        assert FirstDataAt(units, k + 1) by {
          forall i | 0 <= i < k + 1 ensures units[i].data.None? {
            if i > 0 { assert units[i] == units[1..][i - 1]; }
          }
        }
      }
    } else if |units| > 0 {
      assert FirstDataAt(units, 0);
    }
  }

  /** The units the loop does not skip, as (file name, `data`) pairs in discovery order. */
  function WithData(units: seq<CommandUnit>): (r: seq<(string, Dict)>)
    ensures |r| <= |units|
    ensures NoData(units) <==> r == []
  {
    if |units| == 0 then []
    else if units[0].data.None? then WithData(units[1..])
    else [(units[0].fileName, units[0].data.value)] + WithData(units[1..])
  }

  /** The units kept are exactly the units with `data`. */
  lemma {:induction false} WithDataKeepsDataUnits(units: seq<CommandUnit>)
    ensures forall i | 0 <= i < |units| && units[i].data.Some? ::
      (units[i].fileName, units[i].data.value) in WithData(units)
    ensures forall p | p in WithData(units) :: CommandUnit(p.0, Some(p.1)) in units
  {
    if |units| > 0 {
      WithDataKeepsDataUnits(units[1..]);
      forall i | 0 <= i < |units| && units[i].data.Some?
        ensures (units[i].fileName, units[i].data.value) in WithData(units)
      {
        if i > 0 {
          assert units[i] == units[1..][i - 1];
        }
      }
      forall p | p in WithData(units)
        ensures CommandUnit(p.0, Some(p.1)) in units
      {
        if p in WithData(units[1..]) {
          var i :| 0 <= i < |units[1..]| && units[1..][i] == CommandUnit(p.0, Some(p.1));
          assert units[i + 1] == units[1..][i];
        }
      }
    }
  }

  /** The loop treats units one at a time: skipping distributes over concatenation, keeping order. */
  lemma {:induction false} WithDataAppend(a: seq<CommandUnit>, b: seq<CommandUnit>)
    ensures WithData(a + b) == WithData(a) + WithData(b)
  {
    if |a| > 0 {
      assert (a + b)[0] == a[0];
      assert (a + b)[1..] == a[1..] + b;
      WithDataAppend(a[1..], b);
    } else {
      assert a + b == b;
    }
  }

  /** Entry `k` is the first found unit whose `data` fails validation. */
  predicate FirstInsaneAt(found: seq<(string, Dict)>, k: int) {
    && 0 <= k < |found|
    && !Sane(found[k].1)
    && forall j | 0 <= j < k :: Sane(found[j].1)
  }

  /** Some found unit fails validation exactly when there is a first one. */
  lemma {:induction false} FirstInsaneExists(found: seq<(string, Dict)>)
    ensures (exists i :: 0 <= i < |found| && !Sane(found[i].1)) <==> exists k :: FirstInsaneAt(found, k)
  {
    if |found| > 0 && Sane(found[0].1) {
      FirstInsaneExists(found[1..]);
      if exists i :: 0 <= i < |found| && !Sane(found[i].1) {
        var i :| 0 <= i < |found| && !Sane(found[i].1);
        assert found[1..][i - 1] == found[i];
        var k :| FirstInsaneAt(found[1..], k);
        assert FirstInsaneAt(found, k + 1) by {
          forall j | 0 <= j < k + 1 ensures Sane(found[j].1) {
            if j > 0 { assert found[j] == found[1..][j - 1]; }
          }
        }
      }
    } else if |found| > 0 {
      assert FirstInsaneAt(found, 0);
    }
  }

  /** Construct and register every found unit in order; the first invalid one raises. */
  function RegisterAll(found: seq<(string, Dict)>): (r: Result<Registered, CommandError>)
    ensures r.Success? <==> forall i | 0 <= i < |found| :: Sane(found[i].1)
    ensures forall k | FirstInsaneAt(found, k) :: r == Failure(Construct(found[k].1, found[k].0).error)
    ensures r.Success? ==> |r.value.commands| == |found| && |r.value.handlers| == |found|
    ensures r.Success? ==> forall i | 0 <= i < |found| ::
      && r.value.commands[i] == CommandData(found[i].1, found[i].0)
      && Sane(r.value.commands[i].data)
      && r.value.handlers[i] == HandlerOf(r.value.commands[i])
  {
    if |found| == 0 then Success(Registered([], []))
    else match Construct(found[0].1, found[0].0)
      case Failure(e) =>
        assert forall k | FirstInsaneAt(found, k) :: k == 0;
        Failure(e)
      case Success(c) =>
        assert forall k | FirstInsaneAt(found, k) ::
          FirstInsaneAt(found[1..], k - 1) && found[1..][k - 1] == found[k];
        match RegisterAll(found[1..])
        case Failure(e) => Failure(e)
        case Success(rest) => Success(Registered([c] + rest.commands, [HandlerOf(c)] + rest.handlers))
  }

  /**
    The full-loop loader the surrounding code is evidently written for: every
    unit with `data` is constructed and registered, in order, and the list of
    all descriptors is returned.
   */
  function LoadAllCommands(units: seq<CommandUnit>): (r: Result<Registered, CommandError>)
    ensures r.Success? <==> forall i | 0 <= i < |units| && units[i].data.Some? :: Sane(units[i].data.value)
    ensures NoData(units) ==> r == Success(Registered([], []))
    ensures forall k | FirstInsaneAt(WithData(units), k) ::
      r == Failure(Construct(WithData(units)[k].1, WithData(units)[k].0).error)
    ensures r.Success? ==> forall i | 0 <= i < |units| && units[i].data.Some? ::
      CommandData(units[i].data.value, units[i].fileName) in r.value.commands
    ensures r.Success? ==>
      |r.value.commands| == |WithData(units)| && |r.value.handlers| == |WithData(units)|
    ensures r.Success? ==> forall i | 0 <= i < |r.value.commands| ::
      && r.value.commands[i] == CommandData(WithData(units)[i].1, WithData(units)[i].0)
      && Sane(r.value.commands[i].data)
      && r.value.handlers[i] == HandlerOf(r.value.commands[i])
    ensures r.Success? ==> forall i | 0 <= i < |r.value.commands| ::
      CommandUnit(r.value.commands[i].commandPath, Some(r.value.commands[i].data)) in units
  {
    FullLoopCoversDataUnits(units);
    RegisterAll(WithData(units))
  }

  /** The found units, registered, are exactly the units with `data`. */
  lemma FullLoopCoversDataUnits(units: seq<CommandUnit>)
    ensures var r := RegisterAll(WithData(units));
      && (r.Success? <==> forall i | 0 <= i < |units| && units[i].data.Some? :: Sane(units[i].data.value))
      && (r.Success? ==> forall i | 0 <= i < |units| && units[i].data.Some? ::
           CommandData(units[i].data.value, units[i].fileName) in r.value.commands)
      && (r.Success? ==> forall i | 0 <= i < |r.value.commands| ::
           CommandUnit(r.value.commands[i].commandPath, Some(r.value.commands[i].data)) in units)
  {
    WithDataKeepsDataUnits(units);
    var found := WithData(units);
    var r := RegisterAll(found);
    if r.Success? {
      forall i | 0 <= i < |units| && units[i].data.Some?
        ensures CommandData(units[i].data.value, units[i].fileName) in r.value.commands
      {
        var k :| 0 <= k < |found| && found[k] == (units[i].fileName, units[i].data.value);
        assert r.value.commands[k] == CommandData(found[k].1, found[k].0);
      }
      forall i | 0 <= i < |r.value.commands|
        ensures CommandUnit(r.value.commands[i].commandPath, Some(r.value.commands[i].data)) in units
      {
        assert found[i] in found;
      }
    }
  }


  /**
    Whenever every unit with `data` is sane, so that the full loop succeeds,
    the loader as written returns only the full loop's first command and
    handler, or `None` when no unit has `data`.
   */
  lemma {:induction false} AsWrittenKeepsFirstOfFullLoop(units: seq<CommandUnit>)
    requires forall i | 0 <= i < |units| && units[i].data.Some? :: Sane(units[i].data.value)
    ensures NoData(units) ==> LoadCommands(units) == Success(None)
    ensures !NoData(units) ==> LoadCommands(units) == Success(Some(Registered(
      [LoadAllCommands(units).value.commands[0]], [LoadAllCommands(units).value.handlers[0]])))
  {
    if |units| == 0 {
    } else if units[0].data.None? {
      assert NoData(units) <==> NoData(units[1..]);
      assert WithData(units) == WithData(units[1..]);
      AsWrittenKeepsFirstOfFullLoop(units[1..]);
    } else {
      var found := WithData(units);
      assert found[0] == (units[0].fileName, units[0].data.value);
      assert !NoData(units);
    }
  }
}
