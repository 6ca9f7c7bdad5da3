/**
 * The configuration the models read: the structure registry, the database
 * prefix and the URL settings; the identity of a model class (what PHP reads
 * back with `get_class`); and the composite parent key "<structureId>-<elementId>".
 */
module Registry {
  import opened Wrappers
  import opened Strings
  import opened Rows

  /** The listing parameters of a structure. */
  datatype Params = Params(fieldSort: string, elementsSite: nat, elementsCms: nat)

  /** One entry of a structure's `fields`: its name (the array key) and its `type`. */
  datatype FieldDef = FieldDef(name: string, typ: string)

  /** A configured structure, e.g. `Descriptor(3, "Ideal_Part", "", ...)`. */
  datatype Descriptor = Descriptor(id: nat, structure: string, url: string, params: Params, fields: seq<FieldDef>)

  /**
   * The `Config` singleton as far as the core reads it. `start` is the first
   * configured structure; `templates` stands for the templates' `config.php`
   * files, keyed by "<Module>_<Name>".
   */
  datatype Config = Config(
    start: Descriptor,
    others: seq<Descriptor>,
    templates: map<string, Descriptor>,
    dbPrefix: string,
    startUrl: string,
    urlSuffix: string)

  function Structures(cfg: Config): seq<Descriptor> {
    [cfg.start] + cfg.others
  }

  function FindByName(ds: seq<Descriptor>, name: string): (r: Option<Descriptor>)
    ensures r.Some? ==> r.value in ds && r.value.structure == name
    ensures r.None? <==> forall i :: 0 <= i < |ds| ==> ds[i].structure != name
  {
    if ds == [] then None
    else if ds[0].structure == name then Some(ds[0])
    else FindByName(ds[1..], name)
  }

  function FindStructureById(ds: seq<Descriptor>, id: nat): (r: Option<Descriptor>)
    ensures r.Some? ==> r.value in ds && r.value.id == id
    ensures r.None? <==> forall i :: 0 <= i < |ds| ==> ds[i].id != id
  {
    if ds == [] then None
    else if ds[0].id == id then Some(ds[0])
    else FindStructureById(ds[1..], id)
  }

  /** `Config::getStructureByName`. */
  function ByName(cfg: Config, name: string): Option<Descriptor> {
    FindByName(Structures(cfg), name)
  }

  /** `Config::getStructureById`. */
  function ById(cfg: Config, id: nat): Option<Descriptor> {
    FindStructureById(Structures(cfg), id)
  }

  /** `getStructureByName` as a step that fails hard when the name is not configured. */
  function RequireByName(cfg: Config, name: string): (r: Result<Descriptor, Error>)
    ensures r.Success? <==> ByName(cfg, name).Some?
    ensures r.Success? ==> r.value.structure == name && r.value in Structures(cfg)
    ensures r.Failure? ==> r.error == UnknownStructure(name)
  {
    match ByName(cfg, name)
    case Some(d) => Success(d)
    case None => Failure(UnknownStructure(name))
  }

  /** The start structure as a path element (`getStartStructure()`). */
  function DescriptorRow(d: Descriptor): Row {
    map["ID" := Text(NatToString(d.id)), "structure" := Text(d.structure), "url" := Text(d.url)]
  }

  function StartRow(cfg: Config): Row {
    DescriptorRow(cfg.start)
  }

  // ---------------------------------------------------------------------------
  // The parent key "<structureId>-<elementId>"

  function FormatKey(structureId: string, elementId: string): string {
    structureId + "-" + elementId
  }

  /** The key that links `end` under `prev`: the id of `prev`'s structure and `end`'s ID. */
  function ParentKey(cfg: Config, prev: Row, end: Row): (r: Result<string, Error>)
    ensures r.Success? <==> ByName(cfg, Field(prev, "structure")).Some?
    ensures r.Success? ==>
      r.value == FormatKey(NatToString(ByName(cfg, Field(prev, "structure")).value.id), Field(end, "ID"))
  {
    var d :- RequireByName(cfg, Field(prev, "structure"));
    Success(FormatKey(NatToString(d.id), Field(end, "ID")))
  }

  datatype KeyParts = KeyParts(structureId: nat, elementId: nat)

  /** `list($s, $e) = explode('-', $key)`, each half read as a number. */
  function ParseKey(key: string): KeyParts {
    var parts := Explode(key, '-');
    KeyParts(NumVal(parts[0]), NumVal(PartAt(parts, 1)))
  }

  /**
   * `Config::getStructureByPrev`: a key under the root sentinel (structure id 0)
   * names the structure by its element id; any other key by its structure id.
   */
  function ByPrev(cfg: Config, key: string): Option<Descriptor> {
    var k := ParseKey(key);
    if k.structureId == 0 then ById(cfg, k.elementId) else ById(cfg, k.structureId)
  }

  lemma DigitsHaveNoDash(s: string)
    requires AllDigits(s)
    ensures '-' !in s
  {
  }

  /** A formatted key parses back into the structure id and the element id it was built from. */
  lemma ParseFormatKey(structureId: nat, elementId: string)
    requires '-' !in elementId
    ensures ParseKey(FormatKey(NatToString(structureId), elementId)) == KeyParts(structureId, NumVal(elementId))
  {
    var a := NatToString(structureId);
    DigitsHaveNoDash(a);
    assert FormatKey(a, elementId) == Join([a, elementId], '-');
    ExplodeJoin([a, elementId], '-');
    NumValOfNatToString(structureId);
  }

  /** The key the router gives the Home model: "0-<start structure id>". */
  function HomeKey(cfg: Config): string {
    FormatKey("0", NatToString(cfg.start.id))
  }

  /** The root sentinel key decodes, under the ancestry rule, to the start structure. */
  lemma HomeKeyNamesStart(cfg: Config)
    ensures ByPrev(cfg, HomeKey(cfg)) == Some(cfg.start)
  {
    ParseFormatKey(0, NatToString(cfg.start.id));
    DigitsHaveNoDash(NatToString(cfg.start.id));
    NumValOfNatToString(cfg.start.id);
    assert NatToString(0) == "0";
  }

  // ---------------------------------------------------------------------------
  // Model classes

  /** A model class `Module\Kind\Name\Context\Model`, e.g. `Ideal\Structure\Part\Site\Model`. */
  datatype ModelClass = ModelClass(moduleName: string, kind: string, name: string, context: string)

  function ClassName(c: ModelClass): string {
    c.moduleName + "\\" + c.kind + "\\" + c.name + "\\" + c.context + "\\Model"
  }

  function ClassParts(c: ModelClass): seq<string> {
    [c.moduleName, c.kind, c.name, c.context, "Model"]
  }

  /** Every piece of the class name is a non-empty identifier without `_` or `\`. */
  predicate WellFormedClass(c: ModelClass) {
    forall i :: 0 <= i < 5 ==> |ClassParts(c)[i]| > 0 && NoClassSep(ClassParts(c)[i])
  }

  lemma ClassNameIsJoin(c: ModelClass)
    ensures ClassName(c) == Join(ClassParts(c), '\\')
  {
    var p := ClassParts(c);
    assert Join(p[4..], '\\') == "Model";
    assert Join(p[3..], '\\') == c.context + "\\Model";
    assert Join(p[2..], '\\') == c.name + "\\" + c.context + "\\Model";
    assert Join(p[1..], '\\') == c.kind + "\\" + c.name + "\\" + c.context + "\\Model";
  }

  const HomeSiteModel := ModelClass("Ideal", "Structure", "Home", "Site")

  /** "<Module>_<Name>", the structure name a class serves. */
  function StructureName(c: ModelClass): string {
    c.moduleName + "_" + c.name
  }

  /** `Model::getStructureName()`: pieces 0 and 2 of the class name split on `\`. */
  function StructureNameOf(className: string): string {
    var parts := Explode(className, '\\');
    PartAt(parts, 0) + "_" + PartAt(parts, 2)
  }

  lemma StructureNameOfClassName(c: ModelClass)
    requires WellFormedClass(c)
    ensures StructureNameOf(ClassName(c)) == StructureName(c)
  {
    ClassNameIsJoin(c);
    var p := ClassParts(c);
    forall i | 0 <= i < |p| ensures '\\' !in p[i] {
      NoClassSepHasNoBackslash(p[i]);
    }
    ExplodeJoin(p, '\\');
  }

  /** "<Module>_<Name>" split at its first underscore. */
  function ModuleOf(structure: string): string {
    structure[..IndexOf(structure, '_')]
  }

  function NameOf(structure: string): string {
    var i := IndexOf(structure, '_');
    if i < |structure| then structure[i + 1..] else ""
  }

  /** `Util::getClassName($structure, $kind)`: "\Module\Kind\Name". */
  function ClassPrefix(structure: string, kind: string): string {
    "\\" + ModuleOf(structure) + "\\" + kind + "\\" + NameOf(structure)
  }

  /** The model class `ClassPrefix(structure, kind) . '\' . context . '\Model'` names. */
  function ClassFor(structure: string, kind: string, context: string): ModelClass {
    ModelClass(ModuleOf(structure), kind, NameOf(structure), context)
  }

  lemma IndexOfAfter(p: string, c: char, t: string)
    requires c !in p
    ensures IndexOf(p + [c] + t, c) == |p|
  {
    if p != [] {
      assert (p + [c] + t)[1..] == p[1..] + [c] + t;
      IndexOfAfter(p[1..], c, t);
    }
  }

  /** The class a structure name selects serves that structure name back. */
  lemma ClassForStructureName(moduleName: string, name: string, kind: string, context: string)
    requires '_' !in moduleName
    ensures ClassFor(moduleName + "_" + name, kind, context) == ModelClass(moduleName, kind, name, context)
    ensures StructureName(ClassFor(moduleName + "_" + name, kind, context)) == moduleName + "_" + name
  {
    IndexOfAfter(moduleName, '_', name);
    assert (moduleName + "_" + name)[|moduleName| + 1..] == name;
    assert (moduleName + "_" + name)[..|moduleName|] == moduleName;
  }

  // ---------------------------------------------------------------------------
  // What the Model constructor reads from the configuration

  /** `substr($s, strpos($s, '_') + 1)`: with no underscore, strpos is false and one character goes. */
  function DropThroughUnderscore(s: string): string {
    var i := IndexOf(s, '_');
    if i < |s| then s[i + 1..] else if |s| > 0 then s[1..] else ""
  }

  function TableName(prefix: string, moduleName: string, kind: string, name: string): string {
    ToLower(prefix + moduleName + "_" + kind + "_" + name)
  }

  /** The state the Model constructor derives from its class: params, fields, table and module. */
  datatype Setup = Setup(params: Params, fields: seq<FieldDef>, table: string, moduleName: string)

  /**
   * `Model::__construct`: a class named Home serves the start structure (with the
   * kind of its own class name in the table name), a Structure class its registry
   * entry, a Template class its template configuration; any other kind throws.
   */
  function ResolveSetup(cfg: Config, c: ModelClass): (r: Result<Setup, Error>)
    ensures r.Success? ==> r.value.moduleName == c.moduleName
    ensures r.Success? && c.name != "Home" ==> r.value.table == TableName(cfg.dbPrefix, c.moduleName, c.kind, c.name)
    ensures c.name != "Home" && c.kind != "Structure" && c.kind != "Template" ==> r == Failure(UnknownType(c.kind))
  {
    if c.name == "Home" then
      var d := cfg.start;
      Success(Setup(d.params, d.fields, TableName(cfg.dbPrefix, c.moduleName, c.kind, DropThroughUnderscore(d.structure)), c.moduleName))
    else if c.kind == "Structure" then
      var d :- RequireByName(cfg, StructureName(c));
      Success(Setup(d.params, d.fields, TableName(cfg.dbPrefix, c.moduleName, c.kind, c.name), c.moduleName))
    else if c.kind == "Template" then
      if StructureName(c) in cfg.templates then
        var d := cfg.templates[StructureName(c)];
        Success(Setup(d.params, d.fields, TableName(cfg.dbPrefix, c.moduleName, c.kind, c.name), c.moduleName))
      else
        Failure(MissingTemplateConfig(StructureName(c)))
    else
      Failure(UnknownType(c.kind))
  }

  /**
   * The Home model reads the start structure's table, params and fields: the
   * same ones as the start structure's own model in any context.
   */
  lemma HomeSharesStartSetup(cfg: Config, name: string, context: string)
    requires cfg.start.structure == "Ideal_" + name && '_' !in name
    ensures ResolveSetup(cfg, HomeSiteModel).Success?
    ensures name != "Home" ==> ResolveSetup(cfg, ClassFor(cfg.start.structure, "Structure", context)) == ResolveSetup(cfg, HomeSiteModel)
  {
    ClassForStructureName("Ideal", name, "Structure", context);
    assert cfg.start.structure == "Ideal" + "_" + name;
    IndexOfAfter("Ideal", '_', name);
    assert cfg.start.structure[6..] == name;
    assert DropThroughUnderscore(cfg.start.structure) == name;
  }

  /** `Config::getStructureByClass`: only Structure classes have a registry entry to find. */
  function ByClass(cfg: Config, c: ModelClass): Option<Descriptor> {
    if c.kind == "Structure" then ByName(cfg, StructureName(c)) else None
  }
}
