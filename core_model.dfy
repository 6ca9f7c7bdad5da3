/**
 * The node model of `Core/Model.php`: one content model bound to a structure
 * class, its parent key, its path from the root and its page data; how it
 * lists and pages its siblings, expands embedded templates, reconstructs its
 * ancestry and is re-typed to the class of the leaf it ends up showing.
 */
module CoreModel {
  import opened Wrappers
  import opened Strings
  import opened Rows
  import opened Registry
  import opened Listing

  // ---------------------------------------------------------------------------
  // Collaborators the base model leaves to subclasses

  /** The state a subclass's `getLocalPath` reads: the model's class, page data and parent key. */
  datatype LocalQuery = LocalQuery(cls: ModelClass, pageData: PageData, prevStructure: string)

  /**
   * The subclasses' `getLocalPath`: the part of the path inside a model's own
   * structure, for each model state it is given for. On any other state the
   * base method applies, and it throws.
   */
  type LocalPaths = map<LocalQuery, seq<Row>>

  /** The local path of a model state, or the empty path where none is given. */
  function LocalAt(local: LocalPaths, c: ModelClass, pd: PageData, prev: string): seq<Row> {
    var q := LocalQuery(c, pd, prev);
    if q in local then local[q] else []
  }

  /**
   * A template model's `getPageData`: the data of the template named by a
   * field's value, scoped under the given parent key.
   */
  type TemplateData = (string, string) -> Value

  // ---------------------------------------------------------------------------
  // Embedded templates (initPageData)

  /** A field whose type names a template (its type contains "_Template"). */
  predicate IsTemplateField(f: FieldDef) {
    Contains(f.typ, "_Template")
  }

  /** Some template field of `fields` is set in `pd`. */
  predicate AnySetTemplate(fields: seq<FieldDef>, pd: PageData) {
    exists j | 0 <= j < |fields| :: IsTemplateField(fields[j]) && PageField(pd, fields[j].name) != Null
  }

  predicate IsTemplateName(fields: seq<FieldDef>, n: string) {
    exists j | 0 <= j < |fields| :: fields[j].name == n && IsTemplateField(fields[j])
  }

  predicate DistinctNames(fields: seq<FieldDef>) {
    forall i, j :: 0 <= i < j < |fields| ==> fields[i].name != fields[j].name
  }

  lemma TemplateNameOfRest(fields: seq<FieldDef>, n: string)
    requires |fields| > 0
    ensures IsTemplateName(fields[1..], n) ==> IsTemplateName(fields, n)
  {
    if IsTemplateName(fields[1..], n) {
      var j :| 0 <= j < |fields[1..]| && fields[1..][j].name == n && IsTemplateField(fields[1..][j]);
      assert fields[j + 1] == fields[1..][j];
    }
  }

  lemma HeadNameNotInRest(fields: seq<FieldDef>)
    requires |fields| > 0 && DistinctNames(fields)
    ensures !IsTemplateName(fields[1..], fields[0].name)
  {
    forall j | 0 <= j < |fields[1..]| ensures fields[1..][j].name != fields[0].name {
      assert fields[1..][j] == fields[j + 1];
    }
  }

  /**
   * The structure a template hangs under: the registry entry of the model's own
   * class, or else (the Home model) that of the second-to-last path element;
   * with neither, no owner can be found.
   */
  function TemplateOwner(cfg: Config, c: ModelClass, path: seq<Row>): (r: Result<Descriptor, Error>)
    ensures ByClass(cfg, c).Some? ==> r == Success(ByClass(cfg, c).value)
    ensures ByClass(cfg, c).None? && |path| < 2 ==> r == Failure(NoTemplateOwner)
    ensures r.Success? ==> r.value in Structures(cfg)
  {
    match ByClass(cfg, c)
    case Some(d) =>
      assert d in Structures(cfg);
      Success(d)
    case None =>
      if |path| >= 2 then RequireByName(cfg, Field(path[|path| - 2], "structure"))
      else Failure(NoTemplateOwner)
  }

  /**
   * The page data after the loop over `fields`: each set template field is
   * replaced by its template's data, scoped "<owner id>-<page ID>".
   */
  function ExpandFields(cfg: Config, c: ModelClass, path: seq<Row>, fields: seq<FieldDef>, pd: PageData, tpl: TemplateData): (r: Result<PageData, Error>)
    ensures r.Failure? <==> TemplateOwner(cfg, c, path).Failure? && AnySetTemplate(fields, pd)
    ensures r.Failure? ==> r.error == TemplateOwner(cfg, c, path).error
    ensures r.Success? ==> (r.value.Loaded? <==> pd.Loaded?)
    ensures r.Success? && !pd.Loaded? ==> r.value == pd
    ensures r.Success? && pd.Loaded? ==> r.value.row.Keys == pd.row.Keys
    ensures r.Success? ==> forall n :: !IsTemplateName(fields, n) ==> PageField(r.value, n) == PageField(pd, n)
    ensures r.Success? ==> forall n :: PageField(pd, n) == Null ==> PageField(r.value, n) == Null
    decreases |fields|
  {
    if fields == [] then Success(pd)
    else
      var f := fields[0];
      if !IsTemplateField(f) || PageField(pd, f.name) == Null then
        var r := ExpandFields(cfg, c, path, fields[1..], pd, tpl);
        assert AnySetTemplate(fields, pd) ==> AnySetTemplate(fields[1..], pd) by {
          if AnySetTemplate(fields, pd) {
            var j :| 0 <= j < |fields| && IsTemplateField(fields[j]) && PageField(pd, fields[j].name) != Null;
            assert fields[1..][j - 1] == fields[j];
          }
        }
        forall n ensures IsTemplateName(fields[1..], n) ==> IsTemplateName(fields, n) {
          TemplateNameOfRest(fields, n);
        }
        r
      else
        assert AnySetTemplate(fields, pd) by {
          assert IsTemplateField(fields[0]) && PageField(pd, fields[0].name) != Null;
        }
        var owner :- TemplateOwner(cfg, c, path);
        var key := FormatKey(NatToString(owner.id), Field(pd.row, "ID"));
        var next := Loaded(pd.row[f.name := tpl(AsString(pd.row[f.name]), key)]);
        var r := ExpandFields(cfg, c, path, fields[1..], next, tpl);
        assert IsTemplateName(fields, f.name);
        forall n ensures IsTemplateName(fields[1..], n) ==> IsTemplateName(fields, n) {
          TemplateNameOfRest(fields, n);
        }
        r
  }

  /** One turn of the loop over the fields: the expansion from field `i` on, in terms of the one from `i + 1`. */
  lemma ExpandFieldsStep(cfg: Config, c: ModelClass, path: seq<Row>, fields: seq<FieldDef>, i: nat, pd: PageData, tpl: TemplateData)
    requires i < |fields|
    ensures var f := fields[i];
      !IsTemplateField(f) || PageField(pd, f.name) == Null ==>
        ExpandFields(cfg, c, path, fields[i..], pd, tpl) == ExpandFields(cfg, c, path, fields[i + 1..], pd, tpl)
    ensures var f := fields[i];
      IsTemplateField(f) && PageField(pd, f.name) != Null && TemplateOwner(cfg, c, path).Failure? ==>
        ExpandFields(cfg, c, path, fields[i..], pd, tpl) == Failure(TemplateOwner(cfg, c, path).error)
    ensures var f := fields[i];
      IsTemplateField(f) && PageField(pd, f.name) != Null && TemplateOwner(cfg, c, path).Success? ==>
        var key := FormatKey(NatToString(TemplateOwner(cfg, c, path).value.id), Field(pd.row, "ID"));
        ExpandFields(cfg, c, path, fields[i..], pd, tpl) ==
        ExpandFields(cfg, c, path, fields[i + 1..], Loaded(pd.row[f.name := tpl(AsString(pd.row[f.name]), key)]), tpl)
  {
    assert fields[i..][0] == fields[i] && fields[i..][1..] == fields[i + 1..];
  }

  /** The value a set template field takes: its template's data under "<owner id>-<page ID>". */
  function ExpandedValue(owner: Descriptor, row: Row, name: string, tpl: TemplateData): Value
    requires name in row
  {
    tpl(AsString(row[name]), FormatKey(NatToString(owner.id), Field(row, "ID")))
  }

  /**
   * With distinct field names and no template field called ID, every template
   * field set in the page data holds its template's data afterwards, each
   * scoped under the owner's id and the page's own ID.
   */
  lemma {:induction false} ExpandReplacesSetTemplates(cfg: Config, c: ModelClass, path: seq<Row>, fields: seq<FieldDef>, row: Row, tpl: TemplateData)
    requires DistinctNames(fields)
    requires !IsTemplateName(fields, "ID")
    requires TemplateOwner(cfg, c, path).Success?
    ensures var r := ExpandFields(cfg, c, path, fields, Loaded(row), tpl);
      r.Success? &&
      forall j :: 0 <= j < |fields| && IsTemplateField(fields[j]) && fields[j].name in row && row[fields[j].name] != Null ==>
        r.value.row[fields[j].name] == ExpandedValue(TemplateOwner(cfg, c, path).value, row, fields[j].name, tpl)
    decreases |fields|
  {
    if fields != [] {
      var owner := TemplateOwner(cfg, c, path).value;
      var f := fields[0];
      var rest := fields[1..];
      assert DistinctNames(rest);
      TemplateNameOfRest(fields, "ID");
      var next := if !IsTemplateField(f) || PageField(Loaded(row), f.name) == Null then row
        else row[f.name := ExpandedValue(owner, row, f.name, tpl)];
      assert ExpandFields(cfg, c, path, fields, Loaded(row), tpl) == ExpandFields(cfg, c, path, rest, Loaded(next), tpl);
      ExpandReplacesSetTemplates(cfg, c, path, rest, next, tpl);
      var r := ExpandFields(cfg, c, path, rest, Loaded(next), tpl);
      if next != row {
        assert f.name != "ID" by {
          assert IsTemplateName(fields, f.name);
        }
        assert Field(next, "ID") == Field(row, "ID");
      }
      forall j | 0 <= j < |fields| && IsTemplateField(fields[j]) && fields[j].name in row && row[fields[j].name] != Null
        ensures r.value.row[fields[j].name] == ExpandedValue(owner, row, fields[j].name, tpl)
      {
        if j == 0 {
          HeadNameNotInRest(fields);
          assert PageField(r.value, f.name) == PageField(Loaded(next), f.name);
        } else {
          assert fields[j] == rest[j - 1];
          assert fields[j].name != f.name;
          assert next[fields[j].name] == row[fields[j].name];
        }
      }
    }
  }

  /** `end($this->path)`: the last element, or `false` for an empty path. */
  function LastOf(path: seq<Row>): (pd: PageData)
    ensures pd.NoRow? <==> path == []
    ensures pd.Loaded? ==> pd.row == path[|path| - 1]
  {
    if path == [] then NoRow else Loaded(path[|path| - 1])
  }

  // ---------------------------------------------------------------------------
  // Ancestry (detectPath)

  /** The parent model's page data after `setPageDataById`: the row with that ID when it has an ID. */
  function PageById(rows: seq<Row>, id: nat): (pd: PageData)
    ensures pd.Loaded? ==> pd.row in rows && IdOf(pd.row) == id && IsSet(pd.row, "ID")
    ensures pd.Unset? <==> !pd.Loaded?
  {
    match FindById(rows, id)
    case Some(r) => if IsSet(r, "ID") then Loaded(r) else Unset
    case None => Unset
  }

  /** Some configured structure, as a path element. */
  predicate IsStructureRow(cfg: Config, r: Row) {
    exists d :: d in Structures(cfg) && r == DescriptorRow(d)
  }

  /** The key a model's ancestry is read from: its first local element's parent key, or else its own. */
  function AncestryKey(lp: seq<Row>, prev: string): string {
    if |lp| > 0 then Field(lp[0], "prev_structure") else prev
  }

  /**
   * One activation of `detectPath`, before its recursive call: the parent key
   * names no structure; or it is under the root sentinel 0 and the structure
   * it names heads the path; or the path continues in the Site model of the
   * structure it names, built with an empty parent key and given the element
   * the key names as page data (or that model's constructor fails).
   */
  datatype Step =
    | Halt(err: Error)
    | Root(top: Row, localPath: seq<Row>)
    | Climb(next: Result<LocalQuery, Error>, localPath: seq<Row>)

  /** The step a model in state `q` takes when its local path is `lp`. */
  function StepAt(cfg: Config, tables: map<string, seq<Row>>, q: LocalQuery, lp: seq<Row>): (s: Step)
    ensures s.Halt? <==> ByPrev(cfg, AncestryKey(lp, q.prevStructure)).None?
    ensures s.Halt? ==> s.err == UnknownParent(AncestryKey(lp, q.prevStructure))
    ensures s.Root? <==> !s.Halt? && ParseKey(AncestryKey(lp, q.prevStructure)).structureId == 0
    ensures s.Root? ==> s.top == DescriptorRow(ByPrev(cfg, AncestryKey(lp, q.prevStructure)).value)
    ensures s.Root? ==> IsStructureRow(cfg, s.top)
    ensures !s.Halt? ==> s.localPath == lp
    ensures s.Climb? && s.next.Success? ==>
      s.next.value.prevStructure == "" && s.next.value.cls.kind == "Structure" && s.next.value.cls.context == "Site"
  {
    var key := AncestryKey(lp, q.prevStructure);
    var k := ParseKey(key);
    match ByPrev(cfg, key)
    case None => Halt(UnknownParent(key))
    case Some(d) =>
      ByPrevIsConfigured(cfg, key);
      if k.structureId == 0 then
        Root(DescriptorRow(d), lp)
      else
        var parent := ClassFor(d.structure, "Structure", "Site");
        match ResolveSetup(cfg, parent)
        case Failure(e) => Climb(Failure(e), lp)
        case Success(setup) =>
          Climb(Success(LocalQuery(parent, PageById(TableRows(tables, setup.table), k.elementId), "")), lp)
  }

  lemma ByPrevIsConfigured(cfg: Config, key: string)
    ensures ByPrev(cfg, key).Some? ==> ByPrev(cfg, key).value in Structures(cfg)
  {
  }

  /** The step of every model state a local path is given for. */
  function Steps(cfg: Config, tables: map<string, seq<Row>>, local: LocalPaths): map<LocalQuery, Step> {
    map q | q in local :: StepAt(cfg, tables, q, local[q])
  }

  /** Every step that ends the climb puts a configured structure at the head of the path. */
  predicate RootsConfigured(cfg: Config, steps: map<LocalQuery, Step>) {
    forall q | q in steps && steps[q].Root? :: IsStructureRow(cfg, steps[q].top)
  }

  /**
   * A path found for a model with local path `lp`: longer than `lp`, ending
   * with it, and opening with a configured structure.
   */
  predicate RootFirst(cfg: Config, p: seq<Row>, lp: seq<Row>) {
    |p| > |lp| && p[|p| - |lp|..] == lp && IsStructureRow(cfg, p[0])
  }

  /**
   * The recursion of `detectPath`: a state with no local path throws, a root
   * step gives its structure and local path, a climbing step appends its local
   * path to the path of the model above. `fuel` bounds the number of climbs.
   */
  function Walk(steps: map<LocalQuery, Step>, q: LocalQuery, fuel: nat): Result<seq<Row>, Error>
    decreases fuel
  {
    if q !in steps then Failure(NotOverridden("getLocalPath"))
    else
      match steps[q]
      case Halt(e) => Failure(e)
      case Root(top, lp) => Success([top] + lp)
      case Climb(next, lp) =>
        if fuel == 0 then Failure(AncestryTooDeep)
        else
          var n :- next;
          var above :- Walk(steps, n, fuel - 1);
          Success(above + lp)
  }

  /** `Model::detectPath` for a model of class `c` with page data `pd` and parent key `prev`. */
  function PathFrom(cfg: Config, tables: map<string, seq<Row>>, local: LocalPaths, c: ModelClass, prev: string, pd: PageData, fuel: nat): Result<seq<Row>, Error> {
    Walk(Steps(cfg, tables, local), LocalQuery(c, pd, prev), fuel)
  }

  /**
   * A found path is root-first: it opens with the structure a root step names
   * and ends with the local path of the state it was found for.
   */
  lemma {:induction false} WalkShape(cfg: Config, steps: map<LocalQuery, Step>, q: LocalQuery, fuel: nat)
    requires RootsConfigured(cfg, steps)
    requires Walk(steps, q, fuel).Success?
    ensures q in steps && !steps[q].Halt?
    ensures RootFirst(cfg, Walk(steps, q, fuel).value, steps[q].localPath)
    decreases fuel
  {
    var p := Walk(steps, q, fuel).value;
    match steps[q]
    case Root(top, lp) =>
      assert p == [top] + lp;
    case Climb(next, lp) =>
      WalkShape(cfg, steps, next.value, fuel - 1);
      var above := Walk(steps, next.value, fuel - 1).value;
      assert p == above + lp;
      assert p[|p| - |lp|..] == lp;
  }

  /** More fuel never changes a path that was found: the bound only cuts off cycles. */
  lemma {:induction false} WalkFuelMonotone(steps: map<LocalQuery, Step>, q: LocalQuery, fuel: nat, more: nat)
    requires fuel <= more
    requires Walk(steps, q, fuel).Success?
    ensures Walk(steps, q, more) == Walk(steps, q, fuel)
    decreases fuel
  {
    if steps[q].Climb? {
      WalkFuelMonotone(steps, steps[q].next.value, fuel - 1, more - 1);
    }
  }

  /** `detectPath` finds a root-first path ending with the model's own local path. */
  lemma PathFromShape(cfg: Config, tables: map<string, seq<Row>>, local: LocalPaths, c: ModelClass, prev: string, pd: PageData, fuel: nat)
    requires PathFrom(cfg, tables, local, c, prev, pd, fuel).Success?
    ensures LocalQuery(c, pd, prev) in local
    ensures RootFirst(cfg, PathFrom(cfg, tables, local, c, prev, pd, fuel).value, LocalAt(local, c, pd, prev))
  {
    var steps := Steps(cfg, tables, local);
    assert RootsConfigured(cfg, steps);
    WalkShape(cfg, steps, LocalQuery(c, pd, prev), fuel);
  }

  /**
   * The Home model, under the key the router gives it and with no local path,
   * finds the start structure alone.
   */
  lemma HomePathIsStart(cfg: Config, tables: map<string, seq<Row>>, local: LocalPaths, pd: PageData, fuel: nat)
    requires LocalAt(local, HomeSiteModel, pd, HomeKey(cfg)) == [] && LocalQuery(HomeSiteModel, pd, HomeKey(cfg)) in local
    ensures PathFrom(cfg, tables, local, HomeSiteModel, HomeKey(cfg), pd, fuel) == Success([StartRow(cfg)])
  {
    HomeKeyNamesStart(cfg);
    ParseFormatKey(0, NatToString(cfg.start.id));
    DigitsHaveNoDash(NatToString(cfg.start.id));
    assert NatToString(0) == "0";
    assert [StartRow(cfg)] + [] == [StartRow(cfg)];
  }

  // ---------------------------------------------------------------------------
  // Re-typing the leaf (detectActualModel)

  /** What `detectActualModel` decides: keep this model, or build one of class `c` under `key`. */
  datatype Retype = Keep | RetypeTo(c: ModelClass, key: string)

  /** "Module\Structure\Name": the class name prefix of a leaf's structure, leading `\` trimmed. */
  function LeafClassPrefix(leaf: Row): string {
    TrimLeft(ClassPrefix(Field(leaf, "structure"), "Structure"), {'\\'})
  }

  /**
   * The decision as the source writes it: keep the model when the leaf's class
   * prefix occurs anywhere in this model's class name.
   */
  function PlanAsWritten(cfg: Config, c: ModelClass, path: seq<Row>): (r: Result<Retype, Error>)
    ensures ClassName(c) == ClassName(HomeSiteModel) || |path| <= 1 ==> r == Success(Keep)
    ensures |path| > 1 && Contains(ClassName(c), LeafClassPrefix(path[|path| - 1])) ==> r == Success(Keep)
  {
    if ClassName(c) == ClassName(HomeSiteModel) || |path| <= 1 then Success(Keep)
    else
      var end := path[|path| - 1];
      var prev := path[|path| - 2];
      if Contains(ClassName(c), LeafClassPrefix(end)) then Success(Keep)
      else
        var d :- RequireByName(cfg, Field(prev, "structure"));
        Success(RetypeTo(ClassFor(Field(end, "structure"), "Structure", c.context), FormatKey(NatToString(d.id), Field(end, "ID"))))
  }

  /**
   * This model's class is the class of the leaf's structure, in this model's
   * context. A leaf that names no structure (an element inside a structure,
   * such as a news item) is served by the model whose path it ends.
   */
  predicate ServesLeaf(c: ModelClass, leaf: Row) {
    Field(leaf, "structure") == "" || c == ClassFor(Field(leaf, "structure"), "Structure", c.context)
  }

  /** A model settled on its path: the Home model, a path too short to re-type, or a model serving its leaf. */
  predicate Settled(c: ModelClass, path: seq<Row>) {
    ClassName(c) == ClassName(HomeSiteModel) || |path| <= 1 || ServesLeaf(c, path[|path| - 1])
  }

  /**
   * The decision as intended: keep the model exactly when its class is the one
   * the leaf's structure names; otherwise re-type it to that class, scoped under
   * the second-to-last element's structure and the leaf's ID.
   */
  function Plan(cfg: Config, c: ModelClass, path: seq<Row>): (r: Result<Retype, Error>)
    ensures ClassName(c) == ClassName(HomeSiteModel) || |path| <= 1 ==> r == Success(Keep)
    ensures ClassName(c) != ClassName(HomeSiteModel) && |path| > 1 ==>
      (r == Success(Keep) <==> ServesLeaf(c, path[|path| - 1]))
    ensures r.Success? && r.value.RetypeTo? ==>
      ServesLeaf(r.value.c, path[|path| - 1]) && r.value.c.context == c.context &&
      ParentKey(cfg, path[|path| - 2], path[|path| - 1]) == Success(r.value.key)
    ensures r.Failure? <==> (ClassName(c) != ClassName(HomeSiteModel) && |path| > 1 &&
      !ServesLeaf(c, path[|path| - 1]) && ParentKey(cfg, path[|path| - 2], path[|path| - 1]).Failure?)
  {
    if ClassName(c) == ClassName(HomeSiteModel) || |path| <= 1 then Success(Keep)
    else
      var end := path[|path| - 1];
      var prev := path[|path| - 2];
      if ServesLeaf(c, end) then Success(Keep)
      else
        var key :- ParentKey(cfg, prev, end);
        Success(RetypeTo(ClassFor(Field(end, "structure"), "Structure", c.context), key))
  }

  /** Re-typing reaches a fixed point: the model built by a re-type is kept by the next decision. */
  lemma PlanIsStable(cfg: Config, c: ModelClass, path: seq<Row>)
    requires Plan(cfg, c, path).Success? && Plan(cfg, c, path).value.RetypeTo?
    ensures Plan(cfg, Plan(cfg, c, path).value.c, path) == Success(Keep)
  {
  }

  /** `ltrim(getClassName(...), '\\')` for a structure name starting with a module letter. */
  lemma TrimmedClassPrefix(structure: string, kind: string)
    requires |structure| > 0 && structure[0] != '\\' && structure[0] != '_'
    ensures TrimLeft(ClassPrefix(structure, kind), {'\\'}) == ModuleOf(structure) + "\\" + kind + "\\" + NameOf(structure)
  {
    var m := ModuleOf(structure);
    ModuleOfStartsName(structure);
    BackslashThen(m, kind, NameOf(structure));
    TrimBackslashThen(m + "\\" + kind + "\\" + NameOf(structure));
  }

  /** A name that does not start with `_` has a non-empty module part that starts it. */
  lemma ModuleOfStartsName(structure: string)
    requires |structure| > 0 && structure[0] != '_'
    ensures |ModuleOf(structure)| > 0 && ModuleOf(structure)[0] == structure[0]
  {
  }

  lemma BackslashThen(m: string, kind: string, n: string)
    ensures "\\" + m + "\\" + kind + "\\" + n == "\\" + (m + "\\" + kind + "\\" + n)
  {
  }

  lemma TrimBackslashThen(q: string)
    requires |q| > 0 && q[0] != '\\'
    ensures TrimLeft("\\" + q, {'\\'}) == q
  {
    assert ("\\" + q)[1..] == q;
  }

  /** The class a structure name selects starts with the trimmed class prefix of that name. */
  lemma ClassNameStartsWithPrefix(structure: string, context: string)
    requires |structure| > 0 && structure[0] != '\\' && structure[0] != '_'
    ensures var c := ClassFor(structure, "Structure", context);
      OccursAt(ClassName(c), TrimLeft(ClassPrefix(structure, "Structure"), {'\\'}), 0)
  {
    var c := ClassFor(structure, "Structure", context);
    var q := ModuleOf(structure) + "\\" + "Structure" + "\\" + NameOf(structure);
    TrimmedClassPrefix(structure, "Structure");
    var t := "\\" + context + "\\Model";
    assert ClassName(c) == q + t;
    assert (q + t)[..|q|] == q;
  }

  /**
   * A leaf without a structure keeps a structure model under both rules: the
   * substring test looks for "Structure\\", which every structure class name holds.
   */
  lemma StructurelessLeafKept(cfg: Config, c: ModelClass, path: seq<Row>)
    requires |path| > 1 && c.kind == "Structure" && Field(path[|path| - 1], "structure") == ""
    ensures Plan(cfg, c, path) == Success(Keep)
    ensures PlanAsWritten(cfg, c, path) == Success(Keep)
  {
    var leaf := path[|path| - 1];
    assert ModuleOf("") == "" && NameOf("") == "";
    var q := "\\" + "Structure\\";
    assert ClassPrefix("", "Structure") == "\\" + q;
    assert ("\\" + q)[1..] == q;
    TrimBackslashThen("Structure\\");
    assert LeafClassPrefix(leaf) == "Structure\\";
    var front := c.moduleName + "\\";
    var rest := c.name + "\\" + c.context + "\\Model";
    ClassNameAround(c);
    OccursBetween(front, c.kind + "\\", rest);
    assert OccursAt(ClassName(c), LeafClassPrefix(leaf), |front|);
    assert Contains(ClassName(c), LeafClassPrefix(leaf));
  }

  /** A class name split around its kind. */
  lemma ClassNameAround(c: ModelClass)
    ensures ClassName(c) == (c.moduleName + "\\") + (c.kind + "\\") + (c.name + "\\" + c.context + "\\Model")
  {
  }

  /** The middle piece of a concatenation occurs right after the first. */
  lemma OccursBetween(a: string, b: string, t: string)
    ensures OccursAt(a + b + t, b, |a|)
  {
    assert (a + b + t)[|a|..|a| + |b|] == b;
  }

  /**
   * Wherever the intended decision keeps a model of a structure class, the
   * substring test keeps it too: the two differ only by re-typing less.
   */
  lemma PlanAsWrittenKeepsWhatPlanKeeps(cfg: Config, c: ModelClass, path: seq<Row>)
    requires |path| > 1
    requires var s := Field(path[|path| - 1], "structure"); |s| > 0 && s[0] != '\\' && s[0] != '_'
    requires Plan(cfg, c, path) == Success(Keep)
    ensures PlanAsWritten(cfg, c, path) == Success(Keep)
  {
    var end := path[|path| - 1];
    if ClassName(c) != ClassName(HomeSiteModel) {
      ClassNameStartsWithPrefix(Field(end, "structure"), c.context);
      assert OccursAt(ClassName(c), LeafClassPrefix(end), 0);
    }
  }

  lemma IdealPartPieces()
    ensures ModuleOf("Ideal_Part") == "Ideal" && NameOf("Ideal_Part") == "Part"
  {
    assert "Ideal_Part" == "Ideal" + "_" + "Part";
    ClassForStructureName("Ideal", "Part", "Structure", "Site");
  }

  lemma PartPrefix()
    ensures TrimLeft(ClassPrefix("Ideal_Part", "Structure"), {'\\'}) == "Ideal\\Structure\\Part"
  {
    IdealPartPieces();
    TrimmedClassPrefix("Ideal_Part", "Structure");
    PartPieces();
  }

  lemma PartPieces()
    ensures "Ideal" + "\\" + "Structure" + "\\" + "Part" == "Ideal\\Structure\\Part"
  {
  }

  lemma PartLeafPrefix(leaf: Row)
    requires Field(leaf, "structure") == "Ideal_Part"
    ensures LeafClassPrefix(leaf) == "Ideal\\Structure\\Part"
  {
    PartPrefix();
  }

  lemma PartNewsOverPart()
    ensures var c := ModelClass("Ideal", "Structure", "PartNews", "Site");
      ClassName(c) != ClassName(HomeSiteModel) && OccursAt(ClassName(c), "Ideal\\Structure\\Part", 0)
  {
    var c := ModelClass("Ideal", "Structure", "PartNews", "Site");
    assert ClassName(c)[16] == 'P' && ClassName(HomeSiteModel)[16] == 'H';
    assert ClassName(c)[..20] == "Ideal\\Structure\\Part";
  }

  /**
   * The substring test keeps a model whose structure name merely extends the
   * leaf's: a `PartNews` model over a leaf of structure `Ideal_Part` is not
   * re-typed, though the leaf is not one of its elements.
   */
  lemma PlanAsWrittenMissesPrefixedName(cfg: Config)
    requires ByName(cfg, "Ideal_Part").Some?
    ensures var c := ModelClass("Ideal", "Structure", "PartNews", "Site");
      var path := [map["structure" := Text("Ideal_Part"), "ID" := Text("1")],
                   map["structure" := Text("Ideal_Part"), "ID" := Text("2")]];
      PlanAsWritten(cfg, c, path) == Success(Keep) && Plan(cfg, c, path).Success? && Plan(cfg, c, path).value.RetypeTo?
  {
    var c := ModelClass("Ideal", "Structure", "PartNews", "Site");
    var root := map["structure" := Text("Ideal_Part"), "ID" := Text("1")];
    var leaf := map["structure" := Text("Ideal_Part"), "ID" := Text("2")];
    var path := [root, leaf];
    assert Field(leaf, "structure") == "Ideal_Part" && Field(root, "structure") == "Ideal_Part";
    PartLeafPrefix(leaf);
    PartNewsOverPart();
    assert Contains(ClassName(c), LeafClassPrefix(leaf));
    assert !ServesLeaf(c, leaf);
    assert ParentKey(cfg, root, leaf).Success?;
  }

  // ---------------------------------------------------------------------------
  // The model object

  /** What `getPager` hands to the view besides the page links: the total and the page shown. */
  datatype Pager = Pager(total: nat, page: int, onPage: nat)

  class ContentModel {
    /** The class the model was built as, and what its constructor read from the configuration. */
    const cls: ModelClass
    const params: Params
    const fields: seq<FieldDef>
    const table: string
    const moduleName: string

    var prevStructure: string
    var path: seq<Row>
    var parentUrl: string
    var pageData: PageData
    var is404: bool

    /** The state of a model straight after construction. */
    predicate Initial(c: ModelClass, s: Setup, prev: string)
      reads this
    {
      cls == c && params == s.params && fields == s.fields && table == s.table && moduleName == s.moduleName &&
      prevStructure == prev && path == [] && parentUrl == "" && pageData == Unset && !is404
    }

    constructor (c: ModelClass, s: Setup, prev: string)
      ensures Initial(c, s, prev)
    {
      cls := c;
      params := s.params;
      fields := s.fields;
      table := s.table;
      moduleName := s.moduleName;
      prevStructure := prev;
      path := [];
      parentUrl := "";
      pageData := Unset;
      is404 := false;
    }

    method SetPrevStructure(prev: string)
      modifies this
      ensures prevStructure == prev
      ensures path == old(path) && parentUrl == old(parentUrl) && pageData == old(pageData) && is404 == old(is404)
    {
      prevStructure := prev;
    }

    method SetPageData(pd: PageData)
      modifies this
      ensures pageData == pd
      ensures prevStructure == old(prevStructure) && path == old(path) && parentUrl == old(parentUrl) && is404 == old(is404)
    {
      pageData := pd;
    }

    /** Loads the row whose ID is `id` from the model's table; leaves the page data alone when there is none. */
    method SetPageDataById(db: Database, id: string)
      modifies this
      ensures var found := PageById(TableRows(db.tables, table), NumVal(id));
        pageData == if found.Loaded? then found else old(pageData)
      ensures prevStructure == old(prevStructure) && path == old(path) && parentUrl == old(parentUrl) && is404 == old(is404)
    {
      var found := PageById(TableRows(db.tables, table), NumVal(id));
      if found.Loaded? {
        pageData := found;
      }
    }

    /**
     * Stores the path; with at least two elements, the parent key becomes the
     * id of the second-to-last element's structure and the last element's ID.
     */
    method SetPath(cfg: Config, p: seq<Row>) returns (err: Option<Error>)
      modifies this
      ensures path == p
      ensures |p| <= 1 ==> err.None? && prevStructure == old(prevStructure)
      ensures |p| > 1 ==> match ParentKey(cfg, p[|p| - 2], p[|p| - 1])
        case Success(key) => err.None? && prevStructure == key
        case Failure(e) => err == Some(e) && prevStructure == old(prevStructure)
      ensures parentUrl == old(parentUrl) && pageData == old(pageData) && is404 == old(is404)
    {
      path := p;
      err := None;
      if |p| > 1 {
        var key := ParentKey(cfg, p[|p| - 2], p[|p| - 1]);
        match key
        case Success(k) => prevStructure := k;
        case Failure(e) => err := Some(e);
      }
    }

    /**
     * Sets the page data to `given`, or to the last path element when none is
     * given, then replaces each set template field, in field order, by its
     * template's data. Fails, before replacing anything, when a set template
     * field has no owning structure.
     */
    method InitPageData(cfg: Config, tpl: TemplateData, given: PageData) returns (err: Option<Error>)
      modifies this
      ensures var pd0 := if given.Unset? then LastOf(old(path)) else given;
        match ExpandFields(cfg, cls, old(path), fields, pd0, tpl)
        case Success(pd) => err.None? && pageData == pd
        case Failure(e) => err == Some(e) && pageData == pd0
      ensures prevStructure == old(prevStructure) && path == old(path) && parentUrl == old(parentUrl) && is404 == old(is404)
    {
      var pd0 := if given.Unset? then LastOf(path) else given;
      pageData := pd0;
      var c, p, fs, pd := cls, path, fields, pd0;
      var goal := ExpandFields(cfg, c, p, fs, pd0, tpl);
      var i := 0;
      while i < |fs|
        invariant 0 <= i <= |fs|
        invariant ExpandFields(cfg, c, p, fs[i..], pd, tpl) == goal
        invariant TemplateOwner(cfg, c, p).Failure? ==> pd == pd0
        invariant pageData == pd
        invariant prevStructure == old(prevStructure) && path == old(path) && parentUrl == old(parentUrl) && is404 == old(is404)
      {
        var f := fs[i];
        ExpandFieldsStep(cfg, c, p, fs, i, pd, tpl);
        if IsTemplateField(f) && PageField(pd, f.name) != Null {
          var owner := TemplateOwner(cfg, c, p);
          if owner.Failure? {
            return Some(owner.error);
          }
          var row := pd.row;
          var key := FormatKey(NatToString(owner.value.id), Field(row, "ID"));
          pd := Loaded(row[f.name := tpl(AsString(row[f.name]), key)]);
          pageData := pd;
        }
        i := i + 1;
      }
      return None;
    }

    /** The page data, initialised from the path on first use (only while it is still unset). */
    method GetPageData(cfg: Config, tpl: TemplateData) returns (r: Result<PageData, Error>)
      modifies this
      ensures !old(pageData).Unset? ==> r == Success(old(pageData)) && pageData == old(pageData)
      ensures old(pageData).Unset? ==> match ExpandFields(cfg, cls, old(path), fields, LastOf(old(path)), tpl)
        case Success(pd) => r == Success(pd) && pageData == pd
        case Failure(e) => r == Failure(e) && pageData == LastOf(old(path))
      ensures prevStructure == old(prevStructure) && path == old(path) && parentUrl == old(parentUrl) && is404 == old(is404)
    {
      if pageData.Unset? {
        var err := InitPageData(cfg, tpl, Unset);
        if err.Some? {
          return Failure(err.value);
        }
      }
      return Success(pageData);
    }

    /** The page size this model's class selects. */
    function PageSize(): nat
      reads this
    {
      OnPage(ClassName(cls), params)
    }

    /** `getList`: this model's siblings in sort order, windowed to `page` when one is given. */
    function GetList(db: Database, page: Option<int>): (r: Result<seq<Row>, Error>)
      reads this, db
      ensures r.Success? ==> forall x :: x in r.value ==> x in TableRows(db.tables, table) && InScope(x, prevStructure)
      ensures r.Success? ==> SortedBy(r.value, params.fieldSort)
      ensures r.Success? && page.Some? ==> |r.value| <= PageSize()
      ensures page.None? ==> r.Success? && multiset(r.value) == multiset(Siblings(TableRows(db.tables, table), prevStructure))
      ensures page.Some? ==> (r.Failure? <==> PageStart(page.value, PageSize()) < 0)
      ensures r == ListWindow(SortBy(Siblings(TableRows(db.tables, table), prevStructure), params.fieldSort), page, PageSize())
    {
      ListPage(TableRows(db.tables, table), prevStructure, params.fieldSort, PageSize(), page)
    }

    /** `getListCount`: how many rows `getList` selects before windowing. */
    function GetListCount(db: Database): (n: nat)
      reads this, db
      ensures GetList(db, None).Success? && |GetList(db, None).value| == n
    {
      var siblings := Siblings(TableRows(db.tables, table), prevStructure);
      assert |multiset(GetList(db, None).value)| == |multiset(siblings)|;
      |siblings|
    }

    /**
     * `getPager` for the requested page: out of range (a non-empty list with
     * fewer pages than the page asked for) sets the 404 flag and gives no pager;
     * otherwise the pager carries the total count.
     */
    method GetPager(db: Database, page: int) returns (r: Result<Option<Pager>, Error>)
      modifies this
      ensures var count := GetListCount(db);
        (r.Failure? <==> count > 0 && PageSize() == 0) &&
        (r.Failure? ==> r.error == ZeroPageSize) &&
        (r.Success? ==> (r.value.None? <==> PageOutOfRange(count, PageSize(), page))) &&
        (r.Success? && r.value.Some? ==> r.value.value == Pager(count, EffectivePage(page), PageSize()))
      ensures is404 == (old(is404) || (r.Success? && r.value.None?))
      ensures prevStructure == old(prevStructure) && path == old(path) && parentUrl == old(parentUrl) && pageData == old(pageData)
    {
      var onPage := PageSize();
      var count := GetListCount(db);
      if count > 0 && onPage == 0 {
        return Failure(ZeroPageSize);
      }
      if PageOutOfRange(count, onPage, page) {
        is404 := true;
        return Success(None);
      }
      return Success(Some(Pager(count, EffectivePage(page), onPage)));
    }

    /** `detectPath` from this model's own state: root-first, ending with its local path. */
    function DetectPath(cfg: Config, tables: map<string, seq<Row>>, local: LocalPaths, fuel: nat): (r: Result<seq<Row>, Error>)
      reads this
      ensures r.Success? ==> RootFirst(cfg, r.value, LocalAt(local, cls, pageData, prevStructure))
    {
      var r := PathFrom(cfg, tables, local, cls, prevStructure, pageData, fuel);
      if r.Success? then
        PathFromShape(cfg, tables, local, cls, prevStructure, pageData, fuel);
        r
      else r
    }

    /**
     * Copies the per-request state of `source` into this model: path, parent URL,
     * page data and 404 flag; class, table, params, fields and parent key stay.
     */
    method SetVars(source: ContentModel)
      modifies this
      ensures path == old(source.path) && parentUrl == old(source.parentUrl)
      ensures pageData == old(source.pageData) && is404 == old(source.is404)
      ensures prevStructure == old(prevStructure)
    {
      var p, u, pd, f := source.path, source.parentUrl, source.pageData, source.is404;
      path := p;
      parentUrl := u;
      pageData := pd;
      is404 := f;
    }

    /**
     * `detectActualModel`: this model, or a new model of the leaf's structure
     * class scoped under the leaf, carrying this model's request state.
     */
    method DetectActualModel(cfg: Config) returns (r: Result<ContentModel, Error>)
      ensures Plan(cfg, cls, path) == Success(Keep) ==> r == Success(this)
      ensures Plan(cfg, cls, path).Failure? ==> r == Failure(Plan(cfg, cls, path).error)
      ensures r.Success? ==> r.value.path == path && Settled(r.value.cls, r.value.path)
      ensures Plan(cfg, cls, path).Success? && Plan(cfg, cls, path).value.RetypeTo? ==>
        var c := Plan(cfg, cls, path).value.c;
        match ResolveSetup(cfg, c)
        case Failure(e) => r == Failure(e)
        case Success(s) =>
          r.Success? && fresh(r.value) && r.value.cls == c && r.value.table == s.table &&
          r.value.params == s.params && r.value.fields == s.fields &&
          r.value.prevStructure == Plan(cfg, cls, path).value.key &&
          r.value.path == path && r.value.parentUrl == parentUrl &&
          r.value.pageData == pageData && r.value.is404 == is404
    {
      var plan := Plan(cfg, cls, path);
      match plan
      case Failure(e) => return Failure(e);
      case Success(Keep) => return Success(this);
      case Success(RetypeTo(c, key)) =>
        var setup := ResolveSetup(cfg, c);
        if setup.Failure? {
          return Failure(setup.error);
        }
        var m := new ContentModel(c, setup.value, key);
        m.SetVars(this);
        return Success(m);
    }
  }

  /** `new $className($prevStructure)`: a model of class `c`, or the error its constructor throws. */
  method NewModel(cfg: Config, c: ModelClass, prev: string) returns (r: Result<ContentModel, Error>)
    ensures ResolveSetup(cfg, c).Failure? ==> r == Failure(ResolveSetup(cfg, c).error)
    ensures ResolveSetup(cfg, c).Success? ==> r.Success? && fresh(r.value) && r.value.Initial(c, ResolveSetup(cfg, c).value, prev)
  {
    var setup := ResolveSetup(cfg, c);
    if setup.Failure? {
      return Failure(setup.error);
    }
    var m := new ContentModel(c, setup.value, prev);
    return Success(m);
  }
}
