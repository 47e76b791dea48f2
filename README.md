# diagrammachine, modelled in Dafny

diagrammachine reads Python source and emits a Mermaid class diagram. It
has two parallel engines with the same shape:

- the standard-library engine (`ast_mermaid_generator.py` with
  `entities.py`), purely syntactic;
- the astroid engine (`generator/mermaid_generator.py` with
  `generator/entities.py`), which also asks astroid's inference for base
  names and some annotations, collects instance attributes (`self.x = …`)
  and prints parametrised and union annotations by their source text.

Each engine selects target files from a `--path` argument (a `++`-separated
list of files, a directory, or one file). It extracts one record per
top-level class: its name, its base names, its attributes and its methods.
It follows `from module import Name` statements one hop to pick up the
records of imported parent classes. Then it fills a fixed Mermaid template:
a titled header, then per class one `C <|-- P` line per parent, one
`name: type` line per attribute and one `name()` line per method.

The model keeps both engines' structure:

- `Wrappers`, `Text`, `FileSystem`, `Mermaid`: `Option`/`Result`, the
  Python string operations used (`split`, `join`, `endswith`,
  `replace(".", "/")`, `lower()`, `strip()`, `str(int)`), the exceptions
  and the file map that stands in for the disk, and the template text.
- `PyAst`, `Entities`, `AstGenerator`, `AstGeneratorProperties`: the
  standard-library engine.
- `AstroidNodes`, `AstroidEntities`, `MermaidGenerator`,
  `MermaidGeneratorProperties`: the astroid engine.

Each generator module defines the engine's behaviour as functions over
values (the import table, the class records, the parent lookup, the
diagram). It then has a class `AstMermaidGenerator` whose methods mirror
the source's loops and are proved equal to those functions. The
properties modules prove what the engines promise about those functions.

The disk is a `map` from path to entry. A file entry holds its parse
(`None` for a syntax error). A directory entry holds the paths `os.walk`
yields under it. A Python exception that escapes is an `Err` value naming
it.

Where the code departs from what its own docstrings and names promise, the
model follows the code, with one exception noted below:

- In the astroid engine, `x = 1` is labelled "", although the docstring of
  `_extract_type_from_Assign_node` in `generator/entities.py` promises a
  constant's type. The constant test is against the standard library's
  `_ast.Constant`, which no astroid node is.
- In the standard-library engine, an unparsable target file or parent
  file raises `SyntaxError`. Only a missing parent file is skipped.
- In the astroid engine, the model reads `parse_file` as its
  `except SyntaxError` clause intends: a file that does not parse gives
  `None`, so an unparsable parent file is skipped, and an unparsable
  *target* file leads to `None.body`, which raises `AttributeError`. This
  holds only if the parser reports a syntax error as a `SyntaxError`.
  `astroid.parse` raises `AstroidSyntaxError` instead, which is not one, so
  as written the error escapes from both (see "## Findings").
- In both engines, opening a parent module path that is a directory
  raises `IsADirectoryError`.
- A property whose `match` has no case for its node returns Python's
  `None`, which the f-string prints as "None". This happens in the astroid
  engine for class-body statements other than `Assign`/`AnnAssign`. Those
  never reach an `Attribute`, so only the label lemmas show it.

## Model

| member | source | states |
|---|---|---|
| Entities.IdOf | entities.py:41-45 | reading `.id` succeeds exactly on a `Name` node and gives its id; any other node raises |
| Entities.Attribute.Name | entities.py:29-47 | defines `name`: the first target's id for an `Assign`, the target's id for an `AnnAssign`, an `IndexError` for no target, "" for any other node; NameRaisesExactly and OtherNodesEmpty state its cases |
| Entities.Attribute.TypeAnnotation | entities.py:49-67 | defines `type_annotation` as the dispatch to the two extractors by node kind, "" for any other node; TypeAnnotationRaisesExactly states when it raises |
| Entities.Attribute.ExtractTypeFromAssign | entities.py:69-93 | defines the label of an unannotated assignment from its value: a constant's type name, a collection's lower-cased class name, a call's callee id, otherwise ""; ConstantLabel, CollectionLabels, CallLabel and OtherValuesUnlabelled state each case |
| Entities.Attribute.ExtractTypeFromAnnAssign | entities.py:95-135 | defines the label of an annotated assignment from its annotation: a subscript's outer id, a bare id, a union of two printed operands, otherwise ""; the annotation-label lemmas state each case |
| Entities.Function.Name | entities.py:146-152 | defines a method's `name` as its `FunctionDef` node's name |
| Entities.ConstantLabel | entities.py:85-86 | an assignment of a literal is labelled with the Python type name of its value: int, str, bool, NoneType, float |
| Entities.CollectionLabels | entities.py:87-89 | an assignment of a list, dict, set or tuple display is labelled "list", "dict", "set", "tuple" |
| Entities.CallLabel | entities.py:90-91 | an assignment of a call is labelled with the callee's id, and raises `AttributeError` when the callee is not a `Name` (e.g. `mod.Cls()`) |
| Entities.TypeAnnotationRaisesExactly | entities.py:58-67 | the type label of an attribute raises exactly for an unannotated call whose callee is not a `Name` |
| Entities.OtherValuesUnlabelled | entities.py:81-93 | any other assigned value is labelled "" |
| Entities.NameAnnotationLabel | entities.py:115-116 | a bare-name annotation is the label, verbatim |
| Entities.SubscriptAnnotationLabel | entities.py:105-112 | a subscripted annotation gives only its outer name (`dict[str, Any]` gives "dict"); when the outer part is no name, the assigned name value's id, else "" |
| Entities.UnionAnnotationLabel | entities.py:118-133 | a union annotation gives its two direct operands joined by a bar, each printed as its id, its constant's text or its object text |
| Entities.ThreeTermUnionLabel | entities.py:118-133 | a three-member union is labelled from the top-level operands only, so the left one prints as a nested object's text |
| Entities.OtherAnnotationsUnlabelled | entities.py:107-135 | any other annotation is labelled "" |
| Entities.OtherNodesEmpty | entities.py:38-47 | an attribute node that is neither assignment kind has name "" and type label "" |
| Entities.NameRaisesExactly | entities.py:38-47 | `name` is the first target's or the annotated target's id, and raises exactly when that target is not a `Name` |
| FileSystem.ModulePath | ast_mermaid_generator.py:155-161 | the lookup file of an import is the root, "/", the module with every "." turned into "/", then ".py" |
| FileSystem.PythonFiles | ast_mermaid_generator.py:99-102 | a path is kept exactly when it is one of the inputs and ends in ".py", and no more paths are kept than given |
| FileSystem.PythonFilesOne | ast_mermaid_generator.py:99-106 | a single path is kept exactly when it ends in ".py" |
| FileSystem.PythonFilesAppend | ast_mermaid_generator.py:99-106 | the filter distributes over concatenation, so it keeps the ".py" paths in their order and with their multiplicity |
| FileSystem.TargetFiles | ast_mermaid_generator.py:94-124 | defines the designated files: the ".py" pieces of a list of two or more pieces, else the ".py" files of a directory walk, else the path itself when it is a file, else none; the three target lemmas state its cases |
| FileSystem.MultiTargetsArePythonPieces | ast_mermaid_generator.py:94-106 | a `++` list designates exactly its ".py" pieces, and no piece contains "++" |
| FileSystem.SingleFileTarget | ast_mermaid_generator.py:121-122 | without "++", an existing file is its only target, with no ".py" test |
| FileSystem.MissingTarget | ast_mermaid_generator.py:94-124 | without "++", a path that is neither a file nor a directory designates nothing |
| Text.Split | ast_mermaid_generator.py:94 | `split` always gives at least one piece |
| Text.SplitCutsLeftmost | ast_mermaid_generator.py:94 | `split` gives one piece, the whole text, exactly when the separator does not occur; otherwise the first piece ends at the leftmost occurrence and the rest is the split of the text after it |
| Text.JoinSplit | ast_mermaid_generator.py:94 | joining the pieces of a split with its separator gives back the input |
| Text.SplitPiecesAreFree | ast_mermaid_generator.py:94 | no piece of a split contains the separator |
| Text.Find | ast_mermaid_generator.py:94 | the found index is the leftmost occurrence; no index means no occurrence |
| Text.ReplaceDots | ast_mermaid_generator.py:155 | the result has the same length, with every "." replaced by "/" and every other character kept |
| Text.Lower | entities.py:89 | lower-casing keeps the length and maps each character on its own, turning exactly the ASCII capitals into small letters |
| Text.TrimStartKeepsSuffix | generator/mermaid_generator.py:84 | the result is a suffix of the input that does not start with whitespace, and every character removed is whitespace |
| Text.TrimEndKeepsPrefix | generator/mermaid_generator.py:84 | the result is a prefix of the input that does not end with whitespace, and every character removed is whitespace |
| Text.NatToDecimal | entities.py:127 | `str(n)` is a non-empty string of decimal digits |
| Text.DecimalRoundTrip | entities.py:127 | reading back the decimal digits of `n` gives `n` |
| Wrappers.ChainThen | ast_mermaid_generator.py:141-143 | extending a file's records by a result and then by another is extending them by the chain of the two |
| Mermaid.ConnectionPresent | ast_mermaid_generator.py:66-68 | every parent name gets its own inheritance line |
| Mermaid.ConnectionsAppend | ast_mermaid_generator.py:66-68 | the inheritance lines of two parent lists are concatenated |
| Mermaid.MethodPresent | ast_mermaid_generator.py:76-78 | every method name gets its own `name()` line |
| Mermaid.MethodLinesStart | ast_mermaid_generator.py:76-78 | the method text starts with the first method's line |
| Mermaid.MethodLinesEnd | ast_mermaid_generator.py:76-78 | non-empty method text ends with "()\n" |
| Mermaid.StripMethodLines | generator/mermaid_generator.py:77-84 | when method names have no whitespace, `strip()` of the method text removes only its final line break, and empty text stays empty |
| Mermaid.StripCallLines | generator/mermaid_generator.py:84 | `strip()` of text that starts with no whitespace and ends in ")\n" drops just the final "\n" |
| Mermaid.ClassBlockShows | ast_mermaid_generator.py:80-85 | text in the connection, attribute or method field occurs in the filled class template |
| AstGenerator.ImportTable | ast_mermaid_generator.py:182-186 | defines the import table: one entry per top-level `ImportFrom`, in order, holding `str(module)` and the imported names; ImportTableAppend, ImportTableOne and ImportEntry state it |
| AstGenerator.BaseNames | ast_mermaid_generator.py:202-208 | defines a class's parent names: per base in order, its id for a `Name`, the outer id for a `Subscript` of a `Name`, nothing otherwise; BaseNamesExactly and DroppedBase state it |
| AstGenerator.ScanClasses | ast_mermaid_generator.py:188-217 | defines the class loop: it stops at the first class with the wanted name, otherwise it records every top-level class and concatenates their parent names; UnscopedScan, ScopedFound and ScopedNotFound state it |
| AstGenerator.ExtractClassInfo | ast_mermaid_generator.py:174-219 | defines the extraction: the matched record alone with no parents and no imports, or all records, their parents and the import table; UnscopedExtraction states it |
| AstGenerator.ResolveParent | ast_mermaid_generator.py:153-170 | defines one imported name's records: none for a non-parent or a missing module file, `IsADirectoryError` for a directory, `SyntaxError` for an unparsable file, else the scoped extraction's records; ResolveParentCases and ResolvedParent state it |
| AstGenerator.ResolveImports | ast_mermaid_generator.py:147-172 | defines the parent lookup as the chained records of every imported name of every import, in order; ResolveImportsAppend states it |
| AstGenerator.CollectFromFile | ast_mermaid_generator.py:126-145 | defines one file's records: `ValueError` for a non-file, `SyntaxError` for an unparsable file, else the unscoped records followed by the parent lookup; FileRecordsFirst states it |
| AstGenerator.ClassesInfo | ast_mermaid_generator.py:91-124 | defines the records of a target by the same branch as the designated files; TargetsCollected states it |
| AstGenerator.Block | ast_mermaid_generator.py:64-85 | defines one class's block: the template filled with its inheritance, attribute and method lines, or the first attribute error; BlockShows states it |
| AstGenerator.Diagram | ast_mermaid_generator.py:51-89 | defines the diagram: the titled header followed by every record's block, or the first error; DiagramShowsEveryRecord and DiagramFailsOnlyOnAttributes state it |
| AstGenerator.AstMermaidGenerator.constructor | ast_mermaid_generator.py:38-49 | the generator keeps its title, target path and project root |
| AstGenerator.AstMermaidGenerator.GenerateDiagram | ast_mermaid_generator.py:51-89 | the loop builds exactly the diagram: the header, then each record's block in order, or the first error an attribute raises |
| AstGenerator.AstMermaidGenerator.ClassTemplate | ast_mermaid_generator.py:64-85 | the three line-accumulating loops give exactly the record's block |
| AstGenerator.AstMermaidGenerator.GetClassesInfo | ast_mermaid_generator.py:91-124 | the branch on the target gives exactly the records of the designated files |
| AstGenerator.AstMermaidGenerator.CollectEach | ast_mermaid_generator.py:99-119 | the loop over candidate paths skips non-".py" paths and concatenates the records of the rest, stopping at the first error |
| AstGenerator.AstMermaidGenerator.CollectClassesInfoFromFileAst | ast_mermaid_generator.py:126-145 | one file's records, then its parents' records; `ValueError` for a non-file, `SyntaxError` for an unparsable file |
| AstGenerator.AstMermaidGenerator.GetParentsInfoFromImports | ast_mermaid_generator.py:147-172 | the loop over the imports gives exactly the parent lookup, import after import, stopping at the first error |
| AstGenerator.AstMermaidGenerator.ExtractClassInfoFromParsedAst | ast_mermaid_generator.py:174-219 | the import loop and the class loop give exactly the extraction, with the scoped early return |
| AstGenerator.AstMermaidGenerator.ConnectionDefinitions | ast_mermaid_generator.py:66-68 | the parent loop gives exactly one inheritance line per parent, in order |
| AstGenerator.AstMermaidGenerator.AttributeDefinitions | ast_mermaid_generator.py:70-74 | the attribute loop gives one `name: type` line per attribute in order, or the first error an attribute raises |
| AstGenerator.AstMermaidGenerator.FunctionDefinitions | ast_mermaid_generator.py:76-78 | the method loop gives exactly one `name()` line per method, in order |
| AstGenerator.AstMermaidGenerator.ParentsInfoFromModule | ast_mermaid_generator.py:153-170 | the inner loop gives exactly the lookups of one import's names, in order, stopping at the first error |
| AstGenerator.AstMermaidGenerator.ParentInfo | ast_mermaid_generator.py:154-170 | one imported name gives exactly its parent lookup: nothing for a non-parent or a missing file, an error for a directory or an unparsable file |
| AstGenerator.AstMermaidGenerator.CollectImports | ast_mermaid_generator.py:182-186 | the first loop gives exactly the import table of the module body |
| AstGenerator.AstMermaidGenerator.CollectClassBody | ast_mermaid_generator.py:193-200 | the class-body loop gives exactly the body's attributes and methods |
| AstGenerator.AstMermaidGenerator.CollectParents | ast_mermaid_generator.py:202-208 | the base loop gives exactly the kept base names |
| AstGeneratorProperties.ImportTableAppend | ast_mermaid_generator.py:181-186 | the import table of two statement lists is the concatenation of their tables |
| AstGeneratorProperties.ImportTableOne | ast_mermaid_generator.py:182-186 | a single statement adds one entry when it is an `ImportFrom`, and nothing otherwise |
| AstGeneratorProperties.ImportEntry | ast_mermaid_generator.py:184-185 | an entry holds `str(module)` ("None" for a relative import without a module) and the imported names in order, ignoring aliases |
| AstGeneratorProperties.BodyAttributesAppend | ast_mermaid_generator.py:193-196 | attributes are collected statement by statement, in source order |
| AstGeneratorProperties.BodyAttributesExactly | ast_mermaid_generator.py:193-196 | a record's attributes are exactly the body's `Assign` and `AnnAssign` statements |
| AstGeneratorProperties.BodyFunctionsAppend | ast_mermaid_generator.py:199-200 | methods are collected statement by statement, in source order |
| AstGeneratorProperties.BodyFunctionsExactly | ast_mermaid_generator.py:199-200 | a record's methods are exactly the body's `FunctionDef` statements |
| AstGeneratorProperties.BaseNamesAppend | ast_mermaid_generator.py:202-208 | base names are collected base by base, in order |
| AstGeneratorProperties.DroppedBase | ast_mermaid_generator.py:202-208 | a base that is neither a `Name` nor a `Subscript` of a `Name` (e.g. `test.RandomClass1`) adds nothing |
| AstGeneratorProperties.BaseNamesExactly | ast_mermaid_generator.py:202-208 | a name is a base name exactly when it is a `Name` base or the outer `Name` of a `Subscript` base |
| AstGeneratorProperties.AllClassesAppend | ast_mermaid_generator.py:188-217 | the reference records of two statement lists are concatenated |
| AstGeneratorProperties.AllParentsAppend | ast_mermaid_generator.py:217 | the accumulated parents of two record lists are concatenated |
| AstGeneratorProperties.UnscopedScan | ast_mermaid_generator.py:188-219 | without a class name, there is one record per top-level class in source order, and the parent list is the concatenation of their parent lists |
| AstGeneratorProperties.UnscopedExtraction | ast_mermaid_generator.py:177-219 | the unscoped extraction is those records, those parents and the import table |
| AstGeneratorProperties.ScopedFound | ast_mermaid_generator.py:212-214 | a scoped lookup gives the first top-level class of that name alone, with no parents and no imports |
| AstGeneratorProperties.ScopedNotFound | ast_mermaid_generator.py:212-219 | a scoped lookup that matches no class gives exactly the unscoped result |
| AstGeneratorProperties.ResolveParentCases | ast_mermaid_generator.py:152-170 | a name not among the parents and a missing module file add nothing; a directory raises `IsADirectoryError`; an unparsable file raises `SyntaxError` |
| AstGeneratorProperties.ResolvedParent | ast_mermaid_generator.py:154-170 | an imported parent resolves to the record of the first class of that name in its module file |
| AstGeneratorProperties.UnmatchedParentBringsWholeFile | ast_mermaid_generator.py:167-170 | when the module file has no class of that name, the lookup brings in every class of the file |
| AstGeneratorProperties.NamesNotResolved | ast_mermaid_generator.py:153-154 | imported names that are not parents add nothing |
| AstGeneratorProperties.UnimportedParentsIgnored | ast_mermaid_generator.py:152-172 | imports that bring in no parent add nothing and read no file |
| AstGeneratorProperties.ResolveImportsAppend | ast_mermaid_generator.py:152-172 | imports are resolved in order, earlier imports' records first, stopping at the first error |
| AstGeneratorProperties.FileRecordsFirst | ast_mermaid_generator.py:126-145 | a non-file raises `ValueError`, an unparsable file raises `SyntaxError`, and a result starts with the file's own records |
| AstGeneratorProperties.CollectPythonAppend | ast_mermaid_generator.py:99-106 | the records of two path lists are chained |
| AstGeneratorProperties.CollectPythonFilters | ast_mermaid_generator.py:99-119 | skipping non-".py" paths is collecting the records of the ".py" paths only |
| AstGeneratorProperties.TargetsCollected | ast_mermaid_generator.py:91-124 | the records of a target are those of the files it designates, in order |
| AstGeneratorProperties.BlocksAppend | ast_mermaid_generator.py:58-87 | the blocks of two record lists are chained |
| AstGeneratorProperties.AttributeLinesOkExactly | ast_mermaid_generator.py:70-74 | the attribute lines are rendered exactly when every attribute's name and type label are |
| AstGeneratorProperties.BlocksOkExactly | ast_mermaid_generator.py:58-87 | the blocks are rendered exactly when every record's attribute lines are |
| AstGeneratorProperties.AttributeLinePresent | ast_mermaid_generator.py:70-74 | every attribute gets its own `name: type` line |
| AstGeneratorProperties.FunctionNamesIndex | ast_mermaid_generator.py:77-78 | the method names are the records' methods' names, one for one |
| AstGeneratorProperties.BlockShows | ast_mermaid_generator.py:64-85 | a block shows every connection line, attribute line and method line of its record |
| AstGeneratorProperties.ShowsPrepend | ast_mermaid_generator.py:87 | text before a block does not hide it |
| AstGeneratorProperties.ShowsExtend | ast_mermaid_generator.py:87 | text after a block does not hide it |
| AstGeneratorProperties.BlocksShow | ast_mermaid_generator.py:58-87 | the blocks show every record |
| AstGeneratorProperties.DiagramShowsEveryRecord | ast_mermaid_generator.py:51-89 | a diagram starts with the titled header and shows every record of the designated files |
| AstGeneratorProperties.DiagramFailsOnlyOnAttributes | ast_mermaid_generator.py:51-89 | once the records are collected, the diagram fails exactly when some attribute's name or type cannot be read |
| AstroidNodes.NameOf | generator/entities.py:45-55 | a node has a `name` exactly when it is a `Name`, a `Lambda`, a `Const` or a collection display; a `Name` gives its id, a `Const` its value's type name, and `List`, `Dict`, `Set`, `Tuple` give "list", "dict", "set", "tuple" |
| AstroidNodes.Infer | generator/utils.py:7-11 | inference gives its first result, `None` on an `InferenceError`, and raises `IndexError` on an empty result |
| AstroidEntities.DefaultReturn | generator/utils.py:14-25 | a property's value is its body's value, or the default when the body raised |
| AstroidEntities.NameAttr | generator/entities.py:48-52 | defines reading `.name`: the node's name, or `AttributeError` when it has none |
| AstroidEntities.AttributeName | generator/entities.py:33-55 | defines the `name` property: the name of the first target, the annotated target or the instance attribute, with `default_return` turning a raised error into ""; NameCases states its cases |
| AstroidEntities.ExtractTypeFromAssign | generator/entities.py:82-106 | defines the label of an unannotated assignment: a collection's lower-cased class name, a call's callee name, otherwise ""; ConstantUnlabelled, CollectionLabels and CallLabel state each case |
| AstroidEntities.ExtractTypeFromAnnAssign | generator/entities.py:108-137 | defines the label of an annotated assignment: a bare name, the text of a subscript or union, else the inferred class's label or ""; AnnotationTextLabels and InferredAnnotationLabel state each case |
| AstroidEntities.AfterTypeAnnotation | generator/entities.py:139-148 | defines the node an attribute holds after its type is read: the parent annotated assignment for an instance attribute under one, otherwise unchanged; TypeAnnotationChangesOnlyInstanceAttributes states it |
| AstroidEntities.TypeLabel | generator/entities.py:57-80 | defines the `type_annotation` property: the extractor for the node kind, with `default_return` turning a raised error into ""; InstanceAttributeLabel and NoneExactlyForOtherNodes state its cases |
| AstroidEntities.Attribute.Name | generator/entities.py:33-55 | `name` is that of the attribute's current node |
| AstroidEntities.Attribute.TypeAnnotation | generator/entities.py:57-80 | `type_annotation` is the label of the node before the call, and the node afterwards is the annotated assignment for an instance attribute under one, else unchanged |
| AstroidEntities.Attribute.constructor | generator/entities.py:30-31 | an attribute wraps the node it is given |
| AstroidEntities.NoneExactlyForOtherNodes | generator/entities.py:45-80 | both properties give `None` exactly for a node kind their `match` has no case for |
| AstroidEntities.NameCases | generator/entities.py:45-55 | `name` is the `name` of the first target (a name's id, or the builtin class name of a constant or display target), the annotated target's name or the instance attribute's name, and "" where that name cannot be read |
| AstroidEntities.UnpackingTargetNamed | generator/entities.py:47-48 | the attribute of a tuple or list unpacking assignment is named "tuple" or "list" |
| AstroidEntities.ConstantUnlabelled | generator/entities.py:96-99 | a literal value is labelled "", because the test is against the constant class imported from the standard library's `_ast` (line 1) |
| AstroidEntities.CollectionLabels | generator/entities.py:100-102 | collection displays are labelled "list", "dict", "set", "tuple" |
| AstroidEntities.CallLabel | generator/entities.py:103-104 | a call is labelled with its callee's name, and "" when the callee has none |
| AstroidEntities.AnnotationTextLabels | generator/entities.py:120-124 | a bare-name annotation is the label; a subscripted or union annotation is labelled by its full text |
| AstroidEntities.InferredAnnotationLabel | generator/entities.py:126-137 | another annotation is labelled by its inferred class's name, with its type parameters in brackets if it has any, and "" otherwise |
| AstroidEntities.ClassLabelParams | generator/entities.py:129-135 | the bracketed label lists the type parameters comma-separated |
| AstroidEntities.InstanceAttributeLabel | generator/entities.py:139-148 | an instance attribute under an annotated assignment is labelled like it; any other gives "" |
| AstroidEntities.NameAfterTypeAnnotation | generator/entities.py:139-148 | once the type of `self.a: int = a` is read, the node is the annotated assignment, so `name` reads its target `self.a` (line 52), which has no name, and gives "" where it gave "a" before |
| AstroidEntities.TypeAnnotationChangesOnlyInstanceAttributes | generator/entities.py:139-148 | reading the type changes the node only for an instance attribute under an annotated assignment, and reading it again gives the same label |
| MermaidGenerator.ImportTable | generator/mermaid_generator.py:198-203 | defines the import table: one entry per top-level `ImportFrom`, in order, holding `str(node.modname)` and the first element of each name pair; ImportTableAppend, ImportTableOne and ImportEntry state it |
| MermaidGenerator.InstanceAttributes | generator/mermaid_generator.py:235-244 | defines a class's instance attributes as the nodes of its `instance_attrs` table, entry by entry; InstanceAttributesAppend and InstanceAttributesExactly state it |
| MermaidGenerator.BaseName | generator/mermaid_generator.py:220-222 | defines one parent name as the `name` of the base's inferred node, raising `AttributeError` when inference fails or the node has no name; BaseNameCases states it |
| MermaidGenerator.BaseNames | generator/mermaid_generator.py:219-222 | defines a class's parent names: the inferred `name` of every base, in order and unfiltered, or the first error reading one; BaseNameCases and BaseNamesExactly state it |
| MermaidGenerator.ScanClasses | generator/mermaid_generator.py:205-231 | defines the class loop: each class is recorded, the first error stops it, a class with the wanted name ends it, otherwise all records and their parent names are collected; UnscopedScan, ScopedFound and ScopedNotFound state it |
| MermaidGenerator.ExtractClassInfo | generator/mermaid_generator.py:185-233 | defines the extraction: the matched record alone, or all records, their parents and the import table, or the error of recording a class |
| MermaidGenerator.ParseResult | generator/mermaid_generator.py:246-260 | `parse_file` as its `except SyntaxError` clause intends: it raises exactly for a missing path (`FileNotFoundError`) or a directory (`IsADirectoryError`), and gives `None` exactly for a file that does not parse; ParseFile is proved equal to it |
| MermaidGenerator.ParseFileAsWritten | generator/mermaid_generator.py:246-260 | `parse_file` as written: it never returns `None`; it succeeds exactly on a file that parses, and a file that does not parse raises `AstroidSyntaxError`, which the `except SyntaxError` clause does not catch |
| MermaidGenerator.ResolveParent | generator/mermaid_generator.py:163-181 | defines one imported name's records: none for a non-parent, a missing file or an unparsable one, the error of a directory, else the scoped extraction's records; ResolveParentCases and ResolvedParent state it |
| MermaidGenerator.ResolveImports | generator/mermaid_generator.py:153-183 | defines the parent lookup as the chained records of every imported name of every import, in order; ResolveImportsAppend and UnimportedParentsIgnored state it |
| MermaidGenerator.CollectFromFile | generator/mermaid_generator.py:130-151 | defines one file's records: `ValueError` for a non-file, `AttributeError` for an unparsable file, else the unscoped records followed by the parent lookup; FileCases states it |
| MermaidGenerator.ClassesInfo | generator/mermaid_generator.py:92-128 | defines the records of a target by the same branch as the designated files; TargetsCollected states it |
| MermaidGenerator.Block | generator/mermaid_generator.py:65-86 | defines one class's block: the template filled with its inheritance lines, attribute lines and stripped method lines; BlockShows states it |
| MermaidGenerator.Diagram | generator/mermaid_generator.py:50-90 | defines the diagram: the titled header followed by every record's block, or the error of collecting the records; DiagramShowsEveryRecord and DiagramFailsOnlyInCollection state it |
| MermaidGenerator.AstMermaidGenerator.constructor | generator/mermaid_generator.py:38-48 | the generator keeps its title, target path and project root |
| MermaidGenerator.AstMermaidGenerator.GenerateDiagram | generator/mermaid_generator.py:50-90 | the method builds exactly the diagram: the header and each record's block, or the error of collecting the records |
| MermaidGenerator.AstMermaidGenerator.AppendClassTemplates | generator/mermaid_generator.py:59-88 | the loop over records appends exactly their blocks, in order |
| MermaidGenerator.AstMermaidGenerator.ClassTemplate | generator/mermaid_generator.py:65-86 | the line-accumulating loops, with a fresh attribute object per attribute, give exactly the record's block |
| MermaidGenerator.AstMermaidGenerator.GetClassesInfo | generator/mermaid_generator.py:92-128 | the branch on the target gives exactly the records of the designated files |
| MermaidGenerator.AstMermaidGenerator.CollectEach | generator/mermaid_generator.py:102-123 | the loop skips non-".py" paths and concatenates the rest's records, stopping at the first error |
| MermaidGenerator.AstMermaidGenerator.CollectClassesInfoFromFile | generator/mermaid_generator.py:130-151 | one file's records, then its parents' records; `ValueError` for a non-file, `AttributeError` for an unparsable one |
| MermaidGenerator.AstMermaidGenerator.GetParentsInfoFromImports | generator/mermaid_generator.py:153-183 | the loop over the imports gives exactly the parent lookup, import after import, skipping missing and unparsable module files |
| MermaidGenerator.AstMermaidGenerator.ExtractClassInfoFromAst | generator/mermaid_generator.py:185-233 | the import loop and the class loop give exactly the extraction, with the scoped early return and the error of an unnameable base |
| MermaidGenerator.AstMermaidGenerator.ExtractInstanceAttributes | generator/mermaid_generator.py:235-244 | the nested loop flattens the instance attribute table in order |
| MermaidGenerator.AstMermaidGenerator.ParseFile | generator/mermaid_generator.py:246-260 | parsing gives the module, `None` on a syntax error, and raises for a missing path or a directory |
| MermaidGenerator.AstMermaidGenerator.ConnectionDefinitions | generator/mermaid_generator.py:67-69 | the parent loop gives exactly one inheritance line per parent, in order |
| MermaidGenerator.AstMermaidGenerator.AttributeDefinitions | generator/mermaid_generator.py:71-75 | the attribute loop gives exactly one `name: type` line per attribute, in order, each read from a fresh attribute object, name first |
| MermaidGenerator.AstMermaidGenerator.FunctionDefinitions | generator/mermaid_generator.py:77-79 | the method loop gives exactly one `name()` line per method, in order, before stripping |
| MermaidGenerator.AstMermaidGenerator.ParentsInfoFromModule | generator/mermaid_generator.py:163-181 | the inner loop gives exactly the lookups of one import's names, in order, stopping at the first error |
| MermaidGenerator.AstMermaidGenerator.ParentInfo | generator/mermaid_generator.py:164-181 | one imported name gives exactly its parent lookup: nothing for a non-parent, a missing file or an unparsable one; the extraction's error otherwise |
| MermaidGenerator.AstMermaidGenerator.CollectImports | generator/mermaid_generator.py:199-203 | the first loop gives exactly the import table of the module body |
| MermaidGenerator.AstMermaidGenerator.CollectClassBody | generator/mermaid_generator.py:210-217 | the class-body loop appends exactly the body's assignments after the instance attributes, and gives exactly its methods |
| MermaidGenerator.AstMermaidGenerator.CollectParents | generator/mermaid_generator.py:219-222 | the base loop gives exactly the inferred name of each base, or the first error reading one |
| MermaidGeneratorProperties.ImportTableAppend | generator/mermaid_generator.py:199-203 | the import table of two statement lists is the concatenation of their tables |
| MermaidGeneratorProperties.ImportTableOne | generator/mermaid_generator.py:199-203 | a single statement adds one entry when it is an `ImportFrom`, and nothing otherwise |
| MermaidGeneratorProperties.ImportEntry | generator/mermaid_generator.py:201-202 | an entry holds the module name and the first element of each imported pair, in order |
| MermaidGeneratorProperties.InstanceAttributesAppend | generator/mermaid_generator.py:241-243 | flattening two tables concatenates their nodes |
| MermaidGeneratorProperties.InstanceAttributesExactly | generator/mermaid_generator.py:235-244 | the flattened nodes are exactly those of the table's entries |
| MermaidGeneratorProperties.BodyAttributesExactly | generator/mermaid_generator.py:210-213 | the class-body attributes are exactly the body's `Assign` and `AnnAssign` statements |
| MermaidGeneratorProperties.BodyFunctionsExactly | generator/mermaid_generator.py:215-217 | the methods are exactly the body's `FunctionDef` statements |
| MermaidGeneratorProperties.RecordAttributes | generator/mermaid_generator.py:207-217 | a record lists its instance attributes first, then exactly its class-body assignments, and its methods are exactly its function definitions |
| MermaidGeneratorProperties.BaseNameCases | generator/mermaid_generator.py:221-222 | a base names a parent exactly when it infers to a node with a name; a failed inference raises `AttributeError` on `None` |
| MermaidGeneratorProperties.BaseNamesExactly | generator/mermaid_generator.py:219-222 | every base contributes exactly one parent name, in order, with no filtering; one unnameable base makes the record fail |
| MermaidGeneratorProperties.AllClassesAppend | generator/mermaid_generator.py:205-231 | the reference records of two statement lists are chained |
| MermaidGeneratorProperties.AllParentsAppend | generator/mermaid_generator.py:231 | the accumulated parents of two record lists are concatenated |
| MermaidGeneratorProperties.UnscopedScan | generator/mermaid_generator.py:205-233 | without a class name, there is one record per top-level class in source order, with the concatenated parent lists, or the first class's error |
| MermaidGeneratorProperties.ScopedFound | generator/mermaid_generator.py:226-228 | a scoped lookup gives the first top-level class of that name alone, with no parents and no imports |
| MermaidGeneratorProperties.ScopedNotFound | generator/mermaid_generator.py:226-233 | a scoped lookup that matches no class gives exactly the unscoped result |
| MermaidGeneratorProperties.ScopedRaisesFirst | generator/mermaid_generator.py:205-231 | a class whose record cannot be built stops the scan and the extraction with its error, scoped or not, once every earlier class can be recorded and none is the one looked for |
| MermaidGeneratorProperties.ResolveParentCases | generator/mermaid_generator.py:162-183 | a name not among the parents, a missing module file and an unparsable one add nothing; a directory raises `IsADirectoryError` |
| MermaidGeneratorProperties.SyntaxErrorEscapes | generator/mermaid_generator.py:253-258 | `parse_file` as written and as intended agree on every entry but a file that does not parse, where the written one raises `AstroidSyntaxError` and the intended one gives `None` |
| MermaidGeneratorProperties.ResolvedParent | generator/mermaid_generator.py:164-181 | an imported parent resolves to the record of the first class of that name in its module file |
| MermaidGeneratorProperties.UnmatchedParentBringsWholeFile | generator/mermaid_generator.py:178-181 | when the module file has no class of that name, the lookup brings in every class of the file |
| MermaidGeneratorProperties.NamesNotResolved | generator/mermaid_generator.py:163-164 | imported names that are not parents add nothing |
| MermaidGeneratorProperties.UnimportedParentsIgnored | generator/mermaid_generator.py:162-183 | imports that bring in no parent add nothing and read no file |
| MermaidGeneratorProperties.ResolveImportsAppend | generator/mermaid_generator.py:162-183 | imports are resolved in order, earlier imports' records first |
| MermaidGeneratorProperties.FileCases | generator/mermaid_generator.py:130-151 | a non-file raises `ValueError`, an unparsable target raises `AttributeError`, and a result starts with the file's own records |
| MermaidGeneratorProperties.CollectPythonAppend | generator/mermaid_generator.py:102-109 | the records of two path lists are chained |
| MermaidGeneratorProperties.CollectPythonFilters | generator/mermaid_generator.py:102-123 | skipping non-".py" paths is collecting the records of the ".py" paths only |
| MermaidGeneratorProperties.TargetsCollected | generator/mermaid_generator.py:92-128 | the records of a target are those of the files it designates, in order |
| MermaidGeneratorProperties.DiagramFailsOnlyInCollection | generator/mermaid_generator.py:50-90 | rendering never raises: the diagram fails exactly when collecting the records does, with that error |
| MermaidGeneratorProperties.BlocksAppend | generator/mermaid_generator.py:59-88 | the blocks of two record lists are concatenated |
| MermaidGeneratorProperties.AttributeLinePresent | generator/mermaid_generator.py:71-75 | every attribute gets its own `name: type` line |
| MermaidGeneratorProperties.FunctionNamesIndex | generator/mermaid_generator.py:78-79 | the method names are the record's methods' names, one for one |
| MermaidGeneratorProperties.NamesHaveNoSpace | generator/mermaid_generator.py:78-79 | identifier method names give whitespace-free name lines, and none exactly when there are no methods |
| MermaidGeneratorProperties.BlockShows | generator/mermaid_generator.py:65-86 | a block shows every connection line, every attribute line and every `name()` of its record |
| MermaidGeneratorProperties.ShowsPrepend | generator/mermaid_generator.py:88 | text before a block does not hide it |
| MermaidGeneratorProperties.ShowsExtend | generator/mermaid_generator.py:88 | text after a block does not hide it |
| MermaidGeneratorProperties.BlocksShow | generator/mermaid_generator.py:59-88 | the blocks show every record whose method names are identifiers |
| MermaidGeneratorProperties.DiagramShowsEveryRecord | generator/mermaid_generator.py:50-90 | a diagram starts with the titled header and shows every record of the designated files |

## Left out

- The command line (`click` options, `main`) and the `click.echo` messages are not modelled. They are user interface and output.
- Parsing and file reading are inputs. `ast.parse`, `astroid.parse` and `open(...).read()` are replaced by the file map, whose file entries hold the parsed module or `None` for a syntax error.
- The file map has only three kinds of path: missing, a file, a directory. A parent lookup therefore fails to open a module file only by `FileNotFoundError`, which both engines skip, or by `IsADirectoryError`. The other errors `open(...).read()` can raise are not modelled: `NotADirectoryError` when a directory on the path is a file, `PermissionError`, `UnicodeDecodeError`. In the source none of them is caught; each ends the run. The map also does not enforce that a file entry's path is no directory prefix of another entry.
- The order in which `os.walk` yields files is an input: a directory entry holds the walked paths in that order, already joined to their root.
- astroid's inference, `as_string()`, `instance_attrs` and `type_params` are inputs attached to the nodes they are asked of. Nothing is modelled about how astroid computes them.
- `generator/utils.py` is modelled only by its contracts: `_infer` as `Infer`, and `default_return` as `DefaultReturn`. How the decorator wraps a function is not modelled.
- The object text Python prints for a union operand that is neither a name nor a constant holds a memory address. It is an opaque string carried by the node.
- Float, complex and bytes literals are carried with the text `str()` gives for them. The model does not compute Python's float formatting.
- MermaidGenerator.AstMermaidGenerator.ClassTemplate: the astroid engine creates its `Attribute` objects during extraction and reads them only while rendering. The model creates them when rendering. Each attribute is read exactly once, `name` before `type_annotation`, so the output is the same; the object's later state is not kept.
- The source writes each engine's `generate_diagram` and `_extract_class_info_from_*` as single functions with nested loops. The model splits them into one method per loop (ClassTemplate, AppendClassTemplates, ConnectionDefinitions, AttributeDefinitions, FunctionDefinitions, CollectImports, CollectClassBody, CollectParents) and splits `_get_parents_info_from_imports` the same way (ParentsInfoFromModule, ParentInfo). A `continue` in the source becomes an early return of no records from the helper. The behaviour is the same.
- Text.Split: its own contract states only that there is at least one piece. Where each cut falls, and that a text without the separator is its own only piece, is stated by Text.SplitCutsLeftmost, so that proofs which unfold `Split` stay small.
- MermaidGeneratorProperties.BlocksShow and MermaidGeneratorProperties.DiagramShowsEveryRecord assume method names contain no whitespace. This holds for Python identifiers, which is all a `FunctionDef` name can be; the parse input does not enforce it.
- MermaidGeneratorProperties.ScopedFound and MermaidGeneratorProperties.ResolvedParent assume every class up to the match can be recorded. Otherwise the first class whose base cannot be named raises first, which MermaidGeneratorProperties.ScopedRaisesFirst states.
- MermaidGenerator.ParseResult and MermaidGenerator.AstMermaidGenerator.ParseFile: both assume the parser reports a syntax error as a `SyntaxError`, so that `parse_file` returns `None`. `astroid.parse` raises `AstroidSyntaxError`, which is not a `SyntaxError`; as written, an unparsable parent or target file stops the run with that error. MermaidGenerator.ParseFileAsWritten models this; the parent lookup, the file collection and the diagram are modelled on the intended reading only.
- astroid's exception classes are not part of this model; that `AstroidSyntaxError` does not derive from `SyntaxError` is taken from the astroid library, not derived here.

## Findings

| source | as written | input that shows it | evidently intended | confidence | as-written member | corrected member |
|---|---|---|---|---|---|---|
| generator/mermaid_generator.py:253-258 | `parse_file` catches `SyntaxError`, but `astroid.parse` raises `AstroidSyntaxError`, which is no `SyntaxError`, so the error escapes | a project file, imported as a parent or given as the target, whose text does not parse (say `class A(:`) | print "Failed to parse" and return `None`, so that an unparsable parent file is skipped | not executed; rests on astroid's exception hierarchy | MermaidGeneratorProperties.SyntaxErrorEscapes | MermaidGenerator.ParseResult |
