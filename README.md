# Ideal CMS routing and tree navigation, in Dafny

This project models the routing and tree-navigation core of Ideal CMS.

The CMS keeps its content in one table per structure. Every row points at its
parent through a composite `prev_structure` key, `"<structureId>-<elementId>"`.
The project models four parts of the core:

- **The node model** (`Core/Model.php`). It covers:
  - the listing and paging of a node's siblings, with the `WHERE` fragment;
  - re-deriving the parent key from a path;
  - rebuilding a page's ancestry across structures;
  - re-typing the model to the structure of the leaf it shows;
  - lazy page data, with embedded templates expanded in place.
- **The site router** (`Core/Site/Router.php`). It covers:
  - URI normalisation, the suffix and trailing-slash checks that raise a 404, and the split into segments;
  - the order of the dispatch steps;
  - the choice of controller.
- **The roster admin model** (`Structure/Roster/Admin/ModelAbstract.php`). It covers:
  - the path walk by element ids;
  - delete with renumbering of the siblings' `pos`;
  - the next free position.
- **The medium** (`Medium/AbstractModel.php`). It covers:
  - the many-to-many link table's name;
  - reading the values an owner has chosen;
  - the statements that replace those values.

The collaborators are modelled as values:

- The database is a `Database` object whose field maps table names to sequences of rows.
- A row maps column names to values. Values are strings, as MySQL hands them over.
- The configuration is an immutable `Config` value: the structure registry, the table prefix, the start URL and the URL suffix.
- A model class is a `ModelClass(module, kind, name, context)` value. It stands for the class names the PHP code builds and instantiates.
- The subclass overrides are given as maps from the state a model is in to what the override returns:
  - `getLocalPath` as `LocalPaths`;
  - `detectPageByUrl` as `UrlWalks`.
- A template's page data is given as a function, `TemplateData`.
- An event handler is given as the model and controller name it sets (`Hook`).
- Where PHP versions differ (division by zero, for one), the model follows PHP 8.

Modules:

- `Wrappers`: `Option` and `Result`.
- `Strings`: the PHP string built-ins the core uses.
- `Rows`: values, rows, page data, errors and the database.
- `Registry`: the configuration, class identity and the parent key.
- `Listing`: the listing, `WHERE` fragment and paging arithmetic.
- `CoreModel`: the `ContentModel` class.
- `SiteRouter`: the `Router` class and dispatch.
- `RosterAdmin`: the roster admin model.
- `Medium`: the `MediumModel` class.

## Model

| member | source | states |
|---|---|---|
| Strings.NumValOfNatToString | Core/Model.php:194 | A structure id written into a parent key reads back as the same number (decimal rendering, then `intval`). |
| Strings.ExplodeJoin | Core/Model.php:179-180 | `explode` undoes `implode` when no piece contains the separator. |
| Strings.JoinExplode | Core/Site/Router.php:145 | Joining the pieces of `explode` gives back the string. |
| Strings.SplitRunsJoin | Core/Model.php:30 | `preg_split('/[_\\\\]+/')` of a backslash-joined class name gives back its pieces. |
| Strings.TrimLeftIsSuffix | Core/Site/Router.php:111 | `ltrim` removes a prefix made only of the trimmed characters. |
| Strings.TrimRight | Core/Site/Router.php:138 | `rtrim` keeps a prefix, removes only trimmed characters, and leaves no trimmed character at the end. |
| Registry.RequireByName | Core/Model.php:50-52 | A structure name resolves exactly when it is configured, to the entry of that name; otherwise `UnknownStructure`. |
| Registry.ParentKey | Core/Model.php:191-194 | The key of `end` under `prev` is "<id of prev's structure>-<end's ID>", and the model has it exactly when prev's structure is configured; an unconfigured one is `UnknownStructure` in the model (see Left out). |
| Registry.ParseFormatKey | Core/Model.php:341 | Splitting a formatted parent key on `-` gives back the structure id and element id it was built from. |
| Registry.HomeKeyNamesStart | Core/Site/Router.php:107-119 | The Home model's key "0-<start ID>" leads the ancestry lookup to the start structure. |
| Registry.StructureNameOfClassName | Core/Model.php:177-181 | `getStructureName` of a class gives "<Module>_<Name>", the structure the class serves. |
| Registry.ClassForStructureName | Core/Model.php:352 | The class that `Util::getClassName` picks for "<Module>_<Name>" serves that structure name back. |
| Registry.ResolveSetup | Core/Model.php:24-69 | The constructor's table name is lower-cased prefix, module, kind and name. It throws for an unknown kind; the model also fails for a Structure class whose structure is not configured (see Left out). |
| Registry.HomeSharesStartSetup | Core/Model.php:37-49 | The Home model reads the start structure's table, params and fields. |
| Listing.PageSizeByContext | Core/Model.php:231-233 | The page size is `elements_cms` exactly when the fourth piece of the class name, lower-cased, is `admin`; otherwise `elements_site`. |
| Listing.GetWhere | Core/Model.php:272-281 | An empty fragment stays empty; a non-empty one becomes a fragment starting with `WHERE `. |
| Listing.GetWhereKeepsCondition | Core/Model.php:274-278 | The condition after `WHERE ` is a suffix of the trimmed fragment. It is shorter only when the fragment starts with `AND` or `OR`, in any case. |
| Listing.GetWhereOfParentFilter | Core/Model.php:222-223 | The parent filter turns into `WHERE e.prev_structure='…'` unchanged. |
| Listing.Siblings | Core/Model.php:222 | The listing keeps exactly the rows under `prevStructure`, or every row when it is empty. |
| Listing.SortBySortsAndPermutes | Core/Model.php:227 | `ORDER BY field_sort` gives a permutation of the rows sorted by the numeric value of that column (see Left out). |
| Listing.ListWindow | Core/Model.php:229-239 | With no page there is no limit. With a page, page 0 counts as 1 and the window is at most `onPage` consecutive rows from `(page-1)*onPage`. A negative offset is rejected. |
| Listing.ListPage | Core/Model.php:220-245 | The listing is the `LIMIT` window (`ListWindow`) of the siblings (`Siblings`) sorted by the numeric value of `field_sort` (`SortBy`): all siblings when unpaged, a failure exactly when the page start is negative, otherwise at most `onPage` in-scope rows of the table. |
| Listing.PagesCoverTheList | Core/Model.php:237-239 | The pages 1..ceil(count/onPage), laid end to end, are the whole list. |
| Listing.PagerAgreesWithWindow | Core/Model.php:305-311 | A non-negative page is in range for the pager exactly when the list is empty or the listing window of that page has rows. |
| Listing.NegativePagePassesPager | Core/Model.php:294-311 | A negative page passes the pager's 404 test, yet its listing window has a negative offset. |
| CoreModel.NewModel | Core/Model.php:24-69 | A new model takes the parent key it is given and the params, fields and table that its class resolves to; or it fails with the constructor's error, which in the model includes an unconfigured structure (see Left out). |
| CoreModel.ContentModel.SetPrevStructure | Core/Model.php:72-75 | Sets the parent key and nothing else. |
| CoreModel.ContentModel.SetPageDataById | Core/Model.php:83-93 | Page data becomes the row with that ID when one with a set ID exists; otherwise it is left as it was. |
| CoreModel.ContentModel.GetPageData | Core/Model.php:109-115 | Page data is initialised only when it is null, from the last path element; otherwise it is returned as stored. |
| CoreModel.ContentModel.SetPageData | Core/Model.php:118-121 | Sets the page data and nothing else. |
| CoreModel.ContentModel.InitPageData | Core/Model.php:123-162 | Page data is the given row or the path's last element, with template fields expanded. A template field that is set but has no owning structure is an error, and page data is then left unexpanded. |
| CoreModel.ExpandFields | Core/Model.php:133-161 | With templates that always build (see Left out), expansion fails exactly when a set template field has no owning structure. It keeps the page data's kind and keys, leaves non-template and unset fields untouched, and never sets a null field. |
| CoreModel.ExpandReplacesSetTemplates | Core/Model.php:155-160 | Every set template field is replaced by the template's page data, scoped "<owner structure ID>-<page ID>". |
| CoreModel.TemplateOwner | Core/Model.php:141-153 | The owner is the model's own structure if configured. Otherwise it is the second-to-last path element's structure, and a path of fewer than two elements throws. In the model an unconfigured second-to-last structure is an error too (see Left out). |
| CoreModel.ContentModel.SetPath | Core/Model.php:184-196 | The path is always stored. With more than one element, the parent key becomes "<id of second-to-last's structure>-<last ID>"; otherwise it is unchanged. When that structure is not configured the model reports `UnknownStructure` and keeps the old key (see Left out). |
| CoreModel.ContentModel.GetList | Core/Model.php:220-245 | The rows of the model's table under its parent key, sorted by the numeric value of `field_sort`: all of them unpaged, and paged the window of `PageSize()` rows from `(page-1)*PageSize()` (page 0 read as 1), failing exactly when that start is negative. |
| CoreModel.ContentModel.GetListCount | Core/Model.php:252-264 | The count is the length of the unpaged listing. |
| CoreModel.ContentModel.GetPager | Core/Model.php:289-321 | Page 0 counts as 1. Out of range means a non-empty list and fewer pages than the page asked for; that sets the 404 flag and gives no pager. The flag is only ever OR-ed in, and the pager's total is the count. |
| CoreModel.StepAt | Core/Model.php:334-356 | One `detectPath` step: an unknown parent key halts, structure id 0 ends at the structure it names, and any other id climbs to that structure's Site model with an empty key and the element it names. |
| CoreModel.WalkShape | Core/Model.php:327-361 | A found path starts with a configured structure and ends with the local path of the state it was found for. |
| CoreModel.WalkFuelMonotone | Core/Model.php:357 | More climbing depth never changes a path that was found. |
| CoreModel.PathFromShape | Core/Model.php:327-361 | `detectPath` is root-first: the path starts with a configured structure and ends with the model's own local path. |
| CoreModel.ContentModel.DetectPath | Core/Model.php:327-361 | Returns a path longer than the local path, ending in it and starting with a configured structure. |
| CoreModel.HomePathIsStart | Core/Model.php:338-347 | A Home model under "0-<start ID>" with an empty local path has the start structure alone as its path. |
| CoreModel.PlanAsWritten | Core/Model.php:374-408 | As written: Home and short paths are kept, and so is any class whose name contains the leaf's class prefix. |
| CoreModel.Plan | Core/Model.php:374-408 | The corrected decision. Home and paths of length ≤ 1 are kept. Otherwise the model is kept exactly when it serves the leaf: the leaf names no structure, or the model's class is that structure's class. Else it is re-typed to a class that serves the leaf, keyed by the last two elements. |
| CoreModel.StructurelessLeafKept | Core/Model.php:391-395 | A structure model whose leaf names no structure (a news item) is kept by both the substring test and the corrected decision. |
| CoreModel.PlanIsStable | Core/Model.php:374-408 | Re-typing is idempotent: the class it picks is kept by a second pass. |
| CoreModel.PlanAsWrittenKeepsWhatPlanKeeps | Core/Model.php:391-395 | Every model the corrected rule keeps, the substring test keeps too. |
| CoreModel.ClassNameStartsWithPrefix | Core/Model.php:391-395 | The class a structure name selects starts with that name's class prefix, leading `\` trimmed. |
| CoreModel.TrimmedClassPrefix | Core/Model.php:391 | `ltrim` of `getClassName` for a name starting with a module letter drops exactly the leading `\`. |
| CoreModel.PlanAsWrittenMissesPrefixedName | Core/Model.php:395 | A `PartNews` model whose leaf is a `Part` row is kept by the substring test, but the corrected rule re-types it. |
| CoreModel.ContentModel.DetectActualModel | Core/Model.php:374-408 | Returns the model itself when it is kept. Otherwise it returns a fresh model of the leaf's class with the new key, the same path, parent URL, page data and 404 flag, and its own table, params and fields. It runs the corrected decision `Plan`, so the result always serves its leaf (see Findings and Left out). |
| CoreModel.ContentModel.SetVars | Core/Model.php:417-425 | Copies path, parent URL, page data and 404 flag from the other model and keeps its own parent key. |
| SiteRouter.RouteUrl | Core/Site/Router.php:111-145 | A URL is the home page exactly when it normalises to the empty string. |
| SiteRouter.RouteUrlSegments | Core/Site/Router.php:124-145 | A non-home URL is a 404 exactly when the suffix is missing or a slash remains once it is cut. The segments join back into the URL with the suffix and trailing slashes cut off. |
| SiteRouter.StripParamsOneLine | Core/Site/Router.php:113 | Cutting at the first `?` or `#` leaves a prefix of the URI that holds neither. |
| SiteRouter.RouteUrlIgnoresParams | Core/Site/Router.php:113 | A query string or fragment never changes where a URI routes. |
| SiteRouter.NormalisedPageUri | Core/Site/Router.php:111-115 | Normalising a page's URI under any mount point gives its segments joined by `/`, followed by the suffix. |
| SiteRouter.RouteUrlOfPageUri | Core/Site/Router.php:111-145 | A page's own URI routes to its segments with no 404. |
| SiteRouter.Router.RouteByUrl | Core/Site/Router.php:102-160 | The home page is looked up from a Home model and any other URL from the start structure's Site model, both under "0-<start ID>". The result is a new model holding what `Landed` gives: the class, constructor setup and key of the model `detectPageByUrl` returns, with its path and 404 flag, no page data and no parent URL. For a non-home URL the URL's 404 is OR-ed into that flag and never clears it. Either constructor's error, or the base method's, is the result's error. |
| SiteRouter.Router.OpenAt | Core/Site/Router.php:148-153 | The result is the model `detectPageByUrl` returns (`Opened`): the one it was called on, or a new one of the class and key it chose. It carries that class's setup and the path and 404 flag found, or a constructor's error. |
| SiteRouter.Router.GetControllerName | Core/Site/Router.php:54-95 | A set controller name wins. An empty path with a 404 becomes the start structure alone, and a path still empty sets the 404. The controller is the one of the path's last structure. |
| SiteRouter.ControllerFollowsModel | Core/Site/Router.php:76-92 | For an ordinary leaf with a structure, the controller belongs to the structure of the model that serves the leaf. |
| SiteRouter.HomeController | Core/Site/Router.php:79-81 | A leaf at URL `/` is shown by the Home controller, whatever its row says. |
| SiteRouter.Router.SetModel | Core/Site/Router.php:175-177 | Sets the model and nothing else. |
| SiteRouter.Router.SetControllerName | Core/Site/Router.php:186-189 | Sets the controller name and nothing else. |
| SiteRouter.Router.RunHook | Core/Site/Router.php:33-34 | An event applies what its handler sets on the router and is recorded as the next stage. |
| SiteRouter.Router.Prepare | Core/Site/Router.php:33-40 | Pre-dispatch runs, then routing only when no handler set a model, then post-dispatch. The model is the post-dispatch handler's, else the pre-dispatch handler's, else the routed one holding `Landed`'s class, key, path and 404 flag. Routing's error is the error, and it arises only when routing runs. The controller name is the last one a handler set. |
| SiteRouter.Router.Settle | Core/Site/Router.php:42-46 | As `SettleOutcome` decides from the old model's class, fields and path: the page data becomes `ExpandFields` of the last path element, and then the model is kept (`Plan` gives `Keep`) or replaced by a new model of the planned class and key. Path, parent URL and 404 flag carry over, and the final model serves its leaf. An expansion, `Plan` or constructor error is the error and keeps the model. |
| SiteRouter.Dispatch | Core/Site/Router.php:23-47 | An AJAX request only names its AJAX controller and runs no stage. Any other request runs the five stages in source order. It settles the model `PreparedState` picks: the post-dispatch handler's, else the pre-dispatch handler's, else the routed one. It ends with the model `SettleOutcome` gives for that model's state: the same object when kept, a new one when re-typed. Each stage's error is the result's error. |
| RosterAdmin.LookupId | Structure/Roster/Admin/ModelAbstract.php:22-26 | A found row is in the table, has a set ID, and its ID reads as the number looked up. |
| RosterAdmin.WalkIdsShape | Structure/Roster/Admin/ModelAbstract.php:16-47 | The walk keeps the given path as a prefix. Each consumed id adds exactly one row, whose ID is that id. A miss stops at a non-empty id; otherwise the walk ends at the end of the ids or at an empty one. |
| RosterAdmin.ChaseShape | Structure/Roster/Admin/ModelAbstract.php:16-47 | For any lookup that finds rows by their ID and any step down, the walk consumes its ids one row each, as `WalkIdsShape` states. |
| RosterAdmin.WalkIdsStopsAtMiss | Structure/Roster/Admin/ModelAbstract.php:26-29 | After a miss, later ids are never looked up: appending ids changes nothing. |
| RosterAdmin.DetectPageByIds | Structure/Roster/Admin/ModelAbstract.php:16-47 | Sets the model's path and 404 flag from its first lookup. Returns the model itself or a fresh one of the leaf's structure, keyed by the last two elements, with the path and 404 flag of the whole walk. |
| RosterAdmin.LoweredRow | Structure/Roster/Admin/ModelAbstract.php:58-60 | A sibling after the deleted one loses exactly 1 from `pos` and nothing else changes. Every other row is untouched. |
| RosterAdmin.DeleteRow | Structure/Roster/Admin/ModelAbstract.php:53 | Removes the rows with that ID from the table and changes no other table. |
| RosterAdmin.LowerSiblings | Structure/Roster/Admin/ModelAbstract.php:58-61 | Lowers the later siblings' positions in the table and changes no other table. |
| RosterAdmin.Delete | Structure/Roster/Admin/ModelAbstract.php:50-65 | Removes the page's row, lowers the siblings after it when `pos` is set, and always returns 1. |
| RosterAdmin.DeleteRemovesElement | Structure/Roster/Admin/ModelAbstract.php:53 | No row with the deleted ID remains. |
| RosterAdmin.ClosingTheGap | Structure/Roster/Admin/ModelAbstract.php:55-62 | Removing position p from positions 1..n and lowering those above p leaves positions 1..n-1. |
| RosterAdmin.DeleteKeepsPositionsContiguous | Structure/Roster/Admin/ModelAbstract.php:50-65 | If the siblings' positions were 1..n before a delete, they are 1..n-1 after it. |
| RosterAdmin.NewPos | Structure/Roster/Admin/ModelAbstract.php:68-85 | The new position is at least 1 and above every sibling's. It is 1 or one more than some sibling's position. |
| RosterAdmin.NewPosAfterContiguous | Structure/Roster/Admin/ModelAbstract.php:73-83 | When the siblings hold positions 1..n, the new position is n+1. |
| Medium.MediumTableOfClass | Medium/AbstractModel.php:46-53 | A medium class `Module\Medium\Name\Model` links through table lower(prefix + "Module_Medium_Name"). Its configuration file is `Medium/Name/config.php`, in the module's directory unless the module is Ideal. |
| Medium.NewMedium | Medium/AbstractModel.php:39-61 | A medium takes its owner, field name, params and fields, and the derived table; a missing configuration file is an error. |
| Medium.MediumModel.GetList | Medium/AbstractModel.php:69-72 | Always fails: subclasses must override it. |
| Medium.MediumModel.GetValues | Medium/AbstractModel.php:79-96 | Loads the owner's page data lazily. Returns the element field of each link row whose owner field is the owner's ID, in row order. |
| Medium.MediumModel.GetSqlAdd | Medium/AbstractModel.php:104-119 | One DELETE of the owner's links, then one INSERT per new value, in order; an empty list gives the DELETE alone. The owner is the first field and the element the second. |
| Medium.LinkText | Medium/AbstractModel.php:111-118 | The text the loop accumulates is the DELETE of the owner's links followed by one INSERT per value, in order. |
| Medium.RenderNoLinks | Medium/AbstractModel.php:111 | With no values the statements render as the DELETE alone. |
| Medium.RenderLinksSnoc | Medium/AbstractModel.php:114-116 | One more value appends exactly one INSERT of that value to the text. |
| Medium.TextOfAllLinks | Medium/AbstractModel.php:111-118 | Appending one statement per loop step gives the rendering of the whole statement list. |
| Medium.LinksRoundTrip | Medium/AbstractModel.php:79-119 | Running the statements `getSqlAdd` builds and then reading the owner's values back gives exactly the new values, in order. |
| Medium.LinksKeepOtherOwners | Medium/AbstractModel.php:104-119 | The statements leave every other owner's values unchanged. |

## Left out

- The database, configuration and file I/O: SQL is not parsed or executed.
  - Queries are filters and sorts over sequences of rows.
  - The `include` of a medium's `config.php` is an optional value given to its constructor. A template's `config.php` is not read: a template model is only the page data it gives (`TemplateData`).
  - The medium's statements are structural values, rendered to text only for their shape. Quoting and escaping of values are not modelled.
- Event plumbing (`PluginBroker`) and `Request`/`$_SERVER`: a handler is the model and controller name it sets, and the request is a value.
- The `Pagination` class: the pager carries the count, page and page size instead of its links.
- `Url\Model::setParentUrl`, `__get`, `setParentModel`, `getPath`, `getParentUrl` and `getPrevStructure`: trivial accessors, or nothing the core's properties depend on.
- `setPageDataByPrevStructure`: not called by the modelled core.
- Reflection (`get_class`, `get_object_vars`, `new $className`): replaced by the `ModelClass` value and an explicit field copy.
- Subclass overrides: `getLocalPath` and `detectPageByUrl` are given as maps from model state to result. A state with no entry fails with `NotOverridden`, as the base methods throw.
- `Structure/Service/Backup/Action.php` is not part of this model (file-system probing and HTML output).
- CoreModel.ContentModel.DetectPath: the ancestry recursion carries a fuel bound and fails with `AncestryTooDeep` when the bound runs out. PHP recurses without bound on a cyclic chain. A path that is found does not depend on the bound (`WalkFuelMonotone`).
- CoreModel.StepAt: a parent key naming no configured structure fails with `UnknownParent`. PHP would go on with a null structure.
- RosterAdmin.DetectPageByIds: a previous element whose structure is not configured fails with `UnknownStructure`. PHP would build a key "-<ID>".
- Strings.NumValOfNatToString: `intval` is modelled on its leading decimal digits. Signs, leading blanks and MySQL's numeric coercion in string comparisons are not modelled.
- RosterAdmin.NewPos: `ORDER BY pos DESC LIMIT 1` is modelled as the numeric maximum of the siblings' positions.
- SiteRouter.Router.Is404: returns false while the router has no model; PHP would read a property of null.
- Registry.ParentKey: a previous element whose structure is not configured fails with `UnknownStructure`. PHP reads the ID of the missing entry as null and builds the key "-<ID>" (Core/Model.php:191-194).
- CoreModel.ContentModel.SetPath: inherits this from `ParentKey`. On an unconfigured structure it reports `UnknownStructure` and keeps the old parent key, where PHP sets the key to "-<ID>".
- CoreModel.Plan: inherits this from `ParentKey`. A re-type under an unconfigured previous structure fails, where PHP builds the new model under "-<ID>" (Core/Model.php:400-402). `CoreModel.PlanAsWritten` does the same through `RequireByName`.
- CoreModel.TemplateOwner: an unconfigured second-to-last structure fails with `UnknownStructure`. PHP goes on with a null structure, and the template's key becomes "-<page ID>" (Core/Model.php:149-157).
- Registry.ResolveSetup: a Structure class whose structure is not configured fails with `UnknownStructure`. PHP goes on with null params and fields (Core/Model.php:51-66).
- CoreModel.NewModel: inherits the `ResolveSetup` failure on an unconfigured structure.
- CoreModel.ContentModel.DetectActualModel: runs the corrected decision `Plan`, not the substring test of Core/Model.php:395, which is modelled as `PlanAsWritten`. The two differ on a model whose structure name extends the leaf's, such as a `PartNews` model over a `Part` leaf: PHP keeps that model and the model re-types it (see Findings). `SiteRouter.Router.Settle` and `SiteRouter.Dispatch` inherit this.
- Listing.SortBy: `ORDER BY e.<field_sort>` is modelled as ascending order of the column's numeric value (`intval`). Lexicographic order of text columns is not modelled. A `field_sort` that carries a direction, such as "date_create DESC", is not modelled either: it is looked up as a column name, every key reads 0, and the listing keeps table order.
- CoreModel.ContentModel.GetPager: a zero page size fails with `ZeroPageSize`, as PHP 8 throws `DivisionByZeroError`. Under PHP 5 the division gives false, so a non-empty list counts as out of range. Under PHP 7 it gives INF, so no page is out of range.
- CoreModel.ExpandFields: a template model whose constructor throws, because its `config.php` does not return an array (Core/Model.php:54-58, reached through Core/Model.php:158), is not modelled. `TemplateData` always gives a value, so expansion fails only for a missing owning structure. `CoreModel.ContentModel.InitPageData`, `GetPageData`, `SiteRouter.Router.Settle` and `SiteRouter.Dispatch` inherit this.
- Concurrent access to the database is not modelled.

## Findings

| source | as written | input that shows it | evidently intended | confidence | as-written member | corrected member |
|---|---|---|---|---|---|---|
| Core/Model.php:395 | `detectActualModel` keeps the model whenever the leaf's class prefix occurs anywhere in the model's class name (`strpos`). | A model of class `Ideal\Structure\PartNews\Site\Model` whose path ends in a row of structure `Ideal_Part`: `Ideal\Structure\Part` occurs in the class name, so the model is not re-typed. | Keep the model only when it serves the leaf: the leaf names no structure, or the model's class is that structure's class. Otherwise re-type to the leaf's class. | not executed | CoreModel.PlanAsWrittenMissesPrefixedName | CoreModel.Plan |
