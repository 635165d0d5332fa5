# StbPhysicalToIfc core, modelled in Dafny

StbPhysicalToIfc converts an ST-Bridge (STB 2.0.2) structural model, an XML
document of nodes, axes, stories, members and their cross-sections, into an
IFC4 building model. This project models the core of that converter and
proves properties of the model:

- **Section extraction** (`stbParser/*section_extractor*.py`,
  `unified_section_processor.py`): the per-family section parsers (H, box,
  pipe, L, C, T, flat bar, round bar, RC rectangle and circle, SRC and CFT
  composites, slabs, walls, piles, footings, braces), the passes that fill the
  `sections_data` dictionary, and the same/not-same and five-type patterns.
- **Element extraction** (`stbParser/*_extractor.py`,
  `common/extractor_utils.py`, `common/definition_processor.py`): nodes,
  beams with haunch segments, columns, braces, walls with openings, slabs,
  piles, footings and foundation columns, with node offsets and story maps,
  and the linear and vertical definitions the IFC side consumes.
- **Checks and naming** (`ifcCreator/utils/validator.py`,
  `ifcCreator/utils/structural_section.py`,
  `common/profile_naming_standards.py`, `common/concrete_strength_utils.py`,
  `common/guid_utils.py`, `common/xml_utils.py`,
  `common/xml_parser_cache.py`).
- **Story assignment and conversion bookkeeping** (`core/*.py`,
  `ifcCreator/core/*.py`): the three-stage story analysis, the
  element-centric converter's duplicate removal and statistics, the story
  and element relationship manager, the creation factory's tracking, the
  story converter's floor assignment, filtering and GL fallback, the default
  story, the element counter's comparison and the integration service's
  mode choice, quality check and fallback.
- **IFC creators and services** (`ifcCreator/creators/*.py`,
  `ifcCreator/services/*.py`, `ifcCreator/geometry/structural_geometry.py`,
  `ifcCreator/specialized/grid_creator.py`): profile and type and material
  caches, the property-set templates, column taper interpolation, wall
  corner and opening geometry, reference directions and grid axes.

Python values are modelled by one datatype `Values.Value` (none, bool,
number, string, list, dict and an opaque `Token` for an IFC entity); Python
dictionaries are `map<string, Value>`. The XML tree is `Xml.Element`. Objects
whose fields the source updates in place (caches, counters, registries,
histories) are classes whose methods are proved against specification
functions. Calls into code that is not modelled (float formatting, `str`,
md5, square roots, the XML parser, the IFC file) are parameters of the
members that use them.

## Model

| member | source | states |
|---|---|---|
| StructuralSection.SectionEqIsIdentity | ifcCreator/utils/structural_section.py:37-43 | two sections are equal exactly when name, section type and properties agree |
| StructuralSection.FromDict | ifcCreator/utils/structural_section.py:73-93 | name is `name`, else `stb_name`, else ""; a flat dict's properties are all keys but name, section_type and stb_name; a nested `properties` that is not a dict or repeats a keyword argument is a TypeError |
| StructuralSection.FromToDict | ifcCreator/utils/structural_section.py:65-93 | `from_dict(to_dict(s)) == s` for every constructible section |
| StructuralSection.FromFlatUsesStbName | ifcCreator/utils/structural_section.py:77-87 | a flat extractor dict without `name` takes `stb_name` as the name and keeps it out of the properties |
| StructuralSection.NamePropertyBreaksRoundTrip | ifcCreator/utils/structural_section.py:61-63 | after `set_property("name", v)` the dict round trip raises TypeError |
| StructuralSection.Section.SetProperty | ifcCreator/utils/structural_section.py:57-63 | `get_property` returns the value just set; other properties, name and type are unchanged |
| StructuralSection.Section.GetProperty | ifcCreator/utils/structural_section.py:57-59 | the stored property, else the default |
| DefinitionProcessor.ConvertPoint | common/definition_processor.py:180-184 | a non-empty dict becomes a Point3D (KeyError without x, y or z); anything else is returned unchanged |
| DefinitionProcessor.ConvertSection | common/definition_processor.py:187-190 | a dict becomes a section object via `from_dict`; anything else is returned unchanged |
| DefinitionProcessor.LinearSharedSection | common/definition_processor.py:54-58 | with only `section`, both sec_start and sec_end are that section |
| DefinitionProcessor.LinearOwnSectionsWin | common/definition_processor.py:54-58 | section_start and section_end take precedence over section |
| DefinitionProcessor.LinearMissingStartRaises | common/definition_processor.py:61-73 | a missing start point raises ValueError whose message lists start_point |
| DefinitionProcessor.LinearMissing | common/definition_processor.py:61-70 | the missing list is empty iff both points and both sections are truthy, and names each one that is not |
| DefinitionProcessor.ChooseSections | common/definition_processor.py:125-139 | a lone truthy section is used for bottom and top; otherwise section is None and bottom/top are converted only when truthy |
| DefinitionProcessor.ProcessVertical | common/definition_processor.py:86-177 | on success, section or both end sections are truthy; rotation defaults to 0.0 and is_reference_direction to False |
| DefinitionProcessor.VerticalMissing | common/definition_processor.py:146-159 | the missing list is empty iff both points exist and section or both end sections do |
| DefinitionProcessor.VerticalSharedSection | common/definition_processor.py:130-134 | a plain column gets the same section object as section, sec_bottom and sec_top |
| DefinitionProcessor.VerticalTaperedSections | common/definition_processor.py:135-139 | with bottom and top sections, section is None and each end is converted |
| DefinitionProcessor.VerticalNeedsBothEnds | common/definition_processor.py:152-164 | a bottom section without a top section and without section is rejected |
| DefinitionProcessor.ExtractedTaperedColumnLost | common/definition_processor.py:93-94 | a tapered column keyed sec_bottom/sec_top, as the column extractor writes it, raises ValueError under the default keys |
| DefinitionProcessor.ExtractedTaperedColumnKeptFixed | stbParser/column_extractor.py:155-157 | reading the extractor's own keys, the same definition keeps both end sections |
| Validator.ValidateBeam | ifcCreator/utils/validator.py:22-75 | passes iff both points exist, a typed section or two typed tapered sections exist, both points are numeric and they differ by more than 1e-6 on some axis |
| Validator.BeamZeroLengthRejected | ifcCreator/utils/validator.py:70-73 | coincident end points are rejected |
| Validator.ValidateColumn | ifcCreator/utils/validator.py:77-159 | passes iff points exist and are numeric, the section checks pass, `definition['section']` is a typed dict or section object, the points differ and top z > bottom z |
| Validator.ColumnTopMustBeAbove | ifcCreator/utils/validator.py:153-157 | a top at or below the bottom is rejected |
| Validator.TaperedColumnRejected | ifcCreator/utils/validator.py:122-134 | as written, a definition whose section is None never passes |
| Validator.ProcessedTaperedColumnRejected | ifcCreator/utils/validator.py:122-134 | every tapered column the definition processor accepts is then rejected |
| Validator.ValidateColumnFixed | ifcCreator/utils/validator.py:77-159 | the same check with `definition['section']` examined only when truthy |
| Validator.TaperedColumnAcceptedFixed | ifcCreator/utils/validator.py:122-134 | with the fix, a tapered column with its top above its bottom passes (and the as-written check rejects it) |
| Validator.ValidateSurface | ifcCreator/utils/validator.py:161-239 | passes iff corner_nodes is a list of at least the minimum length of numeric points and section is a dict with section_type |
| Validator.TwoCornersWallNotSlab | ifcCreator/utils/validator.py:184-225 | two corners suffice for a wall but not for a slab |
| Validator.ValidateTaperedBeam | ifcCreator/utils/validator.py:241-273 | both sections must exist; typed sections must form a same-type pair |
| Validator.TaperPairs | ifcCreator/utils/validator.py:263-271 | only H, RECT, BOX and PIPE same-type pairs pass |
| StructuralSection.ToDict | ifcCreator/utils/structural_section.py:65-70 | the dictionary holds exactly name, section_type and the properties nested under "properties" |
| StructuralSection.Section.constructor | ifcCreator/utils/structural_section.py:21-35 | the new object stands for the given name, section type and keyword properties |
| DefinitionProcessor.LinearOkIsComplete | common/definition_processor.py:54-84 | a definition that passes processing always carries truthy start and end sections |
| DefinitionProcessor.VerticalTail | common/definition_processor.py:166-177 | the chosen sections are stored as given; rotation defaults to 0.0 and the reference-direction flag to False |
| SectionBase.FloatAttr | stbParser/section_extractor_base.py:47-85 | an absent or unparsable attribute gives the default; otherwise its parsed number |
| SectionBase.Req | stbParser/section_extractor_base.py:235-281 | `float(elem.get(name))` succeeds exactly when the attribute is present and parses, and then gives its number |
| SectionBase.StrAttr | stbParser/section_extractor_base.py:87-92 | the attribute when present (even empty), else the default |
| SectionBase.MissingAttrs | stbParser/section_extractor_base.py:94-111 | a name is reported missing exactly when it was asked for and the element lacks it |
| SectionBase.ValidateRequiredAttrsIff | stbParser/section_extractor_base.py:94-111 | validation passes exactly when every listed attribute is present |
| SectionBase.Radius | stbParser/section_extractor_base.py:235-281 | an empty or absent `r` gives the default; a non-empty one must parse and gives its number |
| SectionBase.WithConcrete | stbParser/slab_section_extractor.py:109-110 | a concrete strength is added exactly when it is non-empty; every other key is kept |
| SectionBase.ThicknessDict | stbParser/wall_section_extractor.py:29-70 | an RC slab or wall section has its kind, thickness and name, and `strength_concrete` exactly when the strength is non-empty |
| SectionBase.CacheOfEntry | stbParser/section_extractor_base.py:21-39 | a name is cached exactly when some element carries it, and the entry is such an element |
| SectionBase.BuildSteelSectionCache | stbParser/section_extractor_base.py:21-39 | no StbSections or no StbSecSteel gives an empty cache; otherwise every named child of StbSecSteel by name |
| SectionBase.LParams | stbParser/section_extractor_base.py:113-161 | an L shape exists exactly when A, B, t1 and t2 parse; it is an L with those dimensions |
| SectionBase.Arrangement | stbParser/section_extractor_base.py:113-220 | the arrangement is present exactly when the `type` attribute is non-empty |
| SectionBase.CParams | stbParser/section_extractor_base.py:163-220 | a C shape exists exactly when A, B, t1 and t2 parse; it has no `thickness` key |
| SectionBase.BoxSection | stbParser/section_extractor_base.py:235-281 | a rolled box exists exactly when A, B and t parse and `r` is empty or parses; one radius fills corner and both fillets |
| SectionBase.HLike | stbParser/section_extractor_base.py:283-358 | an H layout exists exactly when A, B, t1, t2 parse (and `r` when given); it carries them under the H keys |
| SectionBase.BuildHDefaultsFillet | stbParser/section_extractor_base.py:283-358 | Build-H and Roll-H succeed on the same elements and agree except that Build-H's absent fillet radius is 0.0, not None |
| SectionBase.PipeSection | stbParser/section_extractor_base.py:395-422 | a pipe exists exactly when D and t parse |
| SectionBase.LipCSection | stbParser/section_extractor_base.py:424-453 | a lipped channel exists exactly when H, A and t parse; A is both widths and t both thicknesses |
| SectionBase.BuildBoxSection | stbParser/section_extractor_base.py:455-491 | a built box exists exactly when A, B, t1 and t2 parse; t1 is the wall thickness and t2 the second one |
| SectionBase.FlatBarSection | stbParser/section_extractor_base.py:493-515 | a flat bar exists exactly when B and t parse and is a RECTANGLE of width B and height t |
| SectionBase.RoundBarSection | stbParser/section_extractor_base.py:517-537 | a round bar exists exactly when R parses and is a CIRCLE of radius R |
| SectionBase.ShapeParams | stbParser/section_extractor_base.py:641-671 | a parsed result always carries a steel section type |
| SectionBase.ShapeParamsDispatch | stbParser/section_extractor_base.py:641-671 | the result is that of the parser of the first tag pattern that matches, in the order Roll-H, Build-H, Roll-BOX, Build-BOX, Roll-C, Roll-L, Pipe, RoundBar, FlatBar, LipC; no pattern gives None |
| SectionBase.FindSteel | stbParser/section_extractor_base.py:589-639 | a figure is found exactly when the element exists, its shape is non-empty and the shape is in the steel cache |
| SectionBase.DoubleChannel | stbParser/section_extractor_base.py:701-763 | a back-to-back or face-to-face name gives a section exactly when the rest of the name splits at 'x' into at least four numbers; the section is the COMPOUND_CHANNEL of those four sizes (`ChannelDict`: overall width twice the flange) |
| SectionBase.BuiltUp | stbParser/section_extractor_base.py:765-825 | a built-up angle name gives an L or a DOUBLE COMPOUND_L exactly when it splits into three numbers |
| SectionBase.FiveTypesSection | stbParser/section_extractor_base.py:673-699 | without a name there is no section; a 2CB- name gives the back-to-back double channel, 2CF- the face-to-face one, 2[- the double built-up channel and [- the single one |
| SectionBase.DoubleChannelOfParts | stbParser/section_extractor_base.py:701-731 | a channel named from four whole sizes parses back to those sizes |
| SectionBase.BackToBackRoundTrip | stbParser/section_extractor_base.py:673-731 | a `2CB-` name written from whole millimetre sizes reads back those sizes as a BACK_TO_BACK channel |
| SectionBase.StoreAllUpdate | stbParser/pile_section_extractor.py:62-69 | merging a pass run from an empty map into `acc` equals running the pass from `acc`: later entries override earlier ones |
| SectionBase.StoreAllKeys | stbParser/section_extractor_base.py:539-587 | an id is in the result exactly when it was there before or some element stores a section under it |
| SectionBase.MergedPassKeys | stbParser/slab_section_extractor.py:25-38 | after merging two passes an id is present when either stores under it, and the second pass wins |
| SectionBase.MergePassesKeys | stbParser/pile_section_extractor.py:62-69 | after merging several passes an id is present exactly when one of them stores under it |
| SectionBase.StoreAllLast | stbParser/section_extractor_base.py:539-587 | the section under an id is the one of the last element that stores under it |
| SectionBase.StoreAllUntouched | stbParser/section_extractor_base.py:539-587 | an id no element stores under keeps its earlier value |
| SectionBase.IdLessSkipped | stbParser/section_extractor_base.py:549-550 | an element with a missing or empty id contributes nothing |
| SectionBase.StorePass | stbParser/section_extractor_base.py:546-560 | the loop leaves exactly the fold of the elements: every truthy result stored under its element's id |
| SectionBase.ExtractSectionsGeneric | stbParser/section_extractor_base.py:539-587 | the result is the fold from an empty map, and every stored id comes from an element that stores under it |
| UnifiedSection.FindSame | stbParser/unified_section_processor.py:100-115 | the Same element is the child of the first pattern that matches; none exactly when no pattern matches |
| UnifiedSection.FindNotSame | stbParser/unified_section_processor.py:117-132 | every NotSame element found is a child of the figure |
| UnifiedSection.Decorate | stbParser/unified_section_processor.py:134-183 | a section keeps its keys and gains `strength_main` when the strength is non-empty and `stb_name` when the context names one |
| UnifiedSection.ProcessSame | stbParser/unified_section_processor.py:134-156 | an empty or uncached shape gives nothing; otherwise the cached shape's section, decorated |
| UnifiedSection.ProcessNotSame | stbParser/unified_section_processor.py:158-183 | like the Same element, and a result records its position, "TOP" when `pos` is absent |
| UnifiedSection.NotSameResults | stbParser/unified_section_processor.py:66-98 | no more results than NotSame elements |
| UnifiedSection.ProcessSameNotSamePattern | stbParser/unified_section_processor.py:66-98 | the results are the Same result followed by the truthy NotSame results |
| UnifiedSection.ProcessNotSameElements | stbParser/unified_section_processor.py:90-94 | the loop appends exactly the truthy NotSame results, in order |
| UnifiedSection.NotSameResultsHavePosition | stbParser/unified_section_processor.py:158-183 | every NotSame result carries a position |
| UnifiedSection.UncachedShapesGiveNothing | stbParser/unified_section_processor.py:158-183 | NotSame elements whose shapes are not cached contribute nothing |
| UnifiedSection.SameComesFirst | stbParser/unified_section_processor.py:66-98 | the Same result comes first, then exactly the truthy NotSame results in document order |
| UnifiedSection.RcRect | stbParser/unified_section_processor.py:214-235 | width and height come from width_X and width_Y, type RECTANGLE, and every context key overrides |
| UnifiedSection.HalfIfTruthy | stbParser/unified_section_processor.py:237-260 | a non-zero diameter is halved; None and 0.0 are kept |
| UnifiedSection.RcCircle | stbParser/unified_section_processor.py:237-260 | the radius is half of D, the diameter is kept, and every context key overrides |
| UnifiedSection.ProcessRcShape | stbParser/unified_section_processor.py:191-212 | a Rect child wins over a Circle child; nothing exactly when neither exists |
| UnifiedSection.CircleRadiusIsHalfDiameter | stbParser/unified_section_processor.py:237-260 | without a context override a circle's radius is half its non-zero diameter |
| UnifiedSection.TagOf | stbParser/unified_section_processor.py:19-53 | a Roll-L tag with no earlier test passing is RollL; no passing test is Other |
| UnifiedSection.TagOfFirstPassing | stbParser/unified_section_processor.py:19-53 | the shape is the one named by the first of the dispatcher's twelve tests that passes, Other when none does |
| UnifiedSection.DispatchSteelShape | stbParser/unified_section_processor.py:19-53 | as written: Build-T, Roll-T, Roll-L, LipC, Roll-FB and unknown tags give nothing; a result has a steel section type |
| UnifiedSection.DispatchSteelShapeFixed | stbParser/unified_section_processor.py:19-53 | corrected: Roll-L, LipC and Roll-FB use the L, lipped channel and flat bar parsers; other tags as written |
| UnifiedSection.RollLLostAsWritten | stbParser/unified_section_processor.py:39-40 | every well-formed Roll-L shape is lost as written and parsed as an L by the corrected dispatcher |
| UnifiedSection.RollLExample | stbParser/unified_section_processor.py:39-40 | an equal-leg angle 100 x 7 is such a shape |
| SectionExtractor.RcColumnRect | stbParser/section_extractor.py:77-104 | an RC column rectangle exists exactly when both widths of the Rect figure parse, and carries them as width_x and width_y |
| SectionExtractor.RcColumnCircle | stbParser/section_extractor.py:106-140 | an RC column circle exists exactly when D parses, and its radius is half of D |
| SectionExtractor.RcColumnSection | stbParser/section_extractor.py:50-75 | the rectangle when it parses, otherwise the circle |
| SectionExtractor.SteelSectionDict | stbParser/section_extractor.py:699-720 | the exact tag tests choose the parser in the source's order; a result always has a steel section type |
| SectionExtractor.Stamp | stbParser/section_extractor.py:310-318 | the section is labelled with strength, section name and shape name; its other keys are kept |
| SectionExtractor.ShapeSection | stbParser/section_extractor.py:270-330 | a Same, Straight or Joint element gives a section exactly when its shape is non-empty, cached and parses; the section records the shape and the name |
| SectionExtractor.Resolve | stbParser/section_extractor.py:335-390 | a NotSame element contributes exactly when it has a pos and a shape that is cached and parses; it gives that pos and the stamped section |
| SectionExtractor.Resolutions | stbParser/section_extractor.py:335-390 | one resolution per NotSame element, in document order |
| SectionExtractor.FoldEndsLast | stbParser/section_extractor.py:379-384 | an end is set exactly when some element resolves at its pos, and it holds the section of the last such element |
| SectionExtractor.ResolveNotSame | stbParser/section_extractor.py:335-390 | the loop leaves the bottom and top the fold of the NotSame elements gives |
| SectionExtractor.ColumnSame | stbParser/section_extractor.py:239-330 | a column's Same section exists exactly when its shape section does; S columns add `is_reference_direction`, CFT columns do not |
| SectionExtractor.TaperedOnlyWhenBothEndsResolve | stbParser/section_extractor.py:386-410 | without a Same element a column is tapered exactly when a BOTTOM and a TOP element both resolve; it starts at the last BOTTOM's section and ends at the last TOP's |
| SectionExtractor.FirstCenter | stbParser/section_extractor.py:640-647 | the first Joint element at CENTER, and none exactly when no Joint element is at CENTER |
| SectionExtractor.JointPick | stbParser/section_extractor.py:638-650 | the representative Joint is a CENTER one when there is one, else the first |
| SectionExtractor.SBeamSection | stbParser/section_extractor.py:575-697 | a steel beam section needs a figure; Straight is used when present, else the Joint pick; a Haunch alone gives nothing |
| SectionExtractor.RcBeamSection | stbParser/section_extractor.py:748-800 | a Rect figure alone decides (width, height); only without one is a Straight figure read (width, depth) |
| SectionExtractor.ExtractSteelSections | stbParser/section_extractor.py:142-199 | the five steel passes run in order over the StbSecSteel children |
| SectionExtractor.ExtractSections | stbParser/section_extractor.py:17-48 | the steel cache is built first and the six passes run in order; no StbSections gives no sections |
| SectionExtractor.RcBeamPassWins | stbParser/section_extractor.py:17-48 | the RC beam pass runs last, so an id it stores ends with its section |
| ColumnSection.ColumnSteelDict | stbParser/column_section_extractor.py:598-624 | this extractor's own tag tests, in its order: Build-H before Roll-H, and so on |
| ColumnSection.ColumnShape | stbParser/column_section_extractor.py:145-157 | a shape section exists exactly when the steel element parses; it records the column name, the shape name and the structure type, and a CFT shape also its truthy strength |
| ColumnSection.FirstAt | stbParser/column_section_extractor.py:82-83 | the first result at the position, and none exactly when no result is there |
| ColumnSection.MergeResults | stbParser/column_section_extractor.py:76-105 | one result is kept as is; with two, equal shape names keep BOTTOM, different ones give a taper from BOTTOM to TOP; more than two store nothing |
| ColumnSection.ThreeTypesShape | stbParser/column_section_extractor.py:115-123 | the first non-empty of shape_bottom, shape_center, shape_top; none exactly when all are empty |
| ColumnSection.ThreeTypesSection | stbParser/column_section_extractor.py:108-142 | a ThreeTypes column exists exactly when the chosen shape is cached and parses; it records that shape and the name |
| ColumnSection.RcColumnSection | stbParser/column_section_extractor.py:159-248 | a Rect figure alone decides and needs both widths truthy; only without one is a Circle read; no figure gives nothing |
| ColumnSection.SrcRectWidths | stbParser/column_section_extractor.py:385-419 | a rectangle's widths are used only when both are non-zero |
| ColumnSection.SrcCircleDiameter | stbParser/column_section_extractor.py:385-419 | a circle's diameter is used only when non-zero |
| ColumnSection.SrcRcPart | stbParser/column_section_extractor.py:385-419 | a valid rectangle, else a valid circle; the part is marked RC; no SRC figure gives nothing |
| ColumnSection.Encased | stbParser/column_section_extractor.py:436-511 | the steel part carries its strength and shape name, and its encasement when given; other keys are kept |
| ColumnSection.CachedShape | stbParser/column_section_extractor.py:442-447 | a cached element exactly when `shape` is non-empty and in the cache |
| ColumnSection.SrcBox | stbParser/column_section_extractor.py:439-465 | a box part's strength defaults to BCR295 and its encasement to ENCASEDANDINFILLED |
| ColumnSection.SrcPipe | stbParser/column_section_extractor.py:466-491 | a pipe part's strength defaults to SN400B |
| ColumnSection.SrcH | stbParser/column_section_extractor.py:493-511 | an H part's `strength_main` defaults to SN400B |
| ColumnSection.PairPart | stbParser/column_section_extractor.py:513-560 | one H of a pair exists exactly when its cached shape parses as an H; it records shape name and strength |
| ColumnSection.SrcPair | stbParser/column_section_extractor.py:513-664 | a Cross (shape_X, shape_Y) or T (shape_H, shape_T) pair exists exactly when both shapes are non-empty, cached and parse |
| ColumnSection.SrcSameSteel | stbParser/column_section_extractor.py:436-511 | BOX, then PIPE, each falling through when it does not resolve, then Cross, then T, each deciding alone, then H |
| ColumnSection.SrcSteelPart | stbParser/column_section_extractor.py:421-434 | only the Same configuration of the SRC steel figure is read |
| ColumnSection.SrcRebar | stbParser/column_section_extractor.py:562-596 | the rebar part exists exactly for a RectSame arrangement |
| ColumnSection.SrcColumnSection | stbParser/column_section_extractor.py:336-383 | an SRC column is stored exactly when both the RC and steel parts are found; concrete strength defaults to Fc21 |
| ColumnSection.ExtractColumnSections | stbParser/column_section_extractor.py:18-43 | the passes run in order on the steel cache; no StbSections gives no sections |
| BeamSection.PartSection | stbParser/beam_section_extractor.py:190-230 | the haunch and joint loops choose the parser by tag suffix, Roll-H first, then Build-H and the others |
| BeamSection.RollAndBuildExclusive | stbParser/beam_section_extractor.py:190-230 | no tag ends with both Roll-H and Build-H, so the order of those two tests does not matter |
| BeamSection.FiveChainIsPartChain | stbParser/beam_section_extractor.py:330-360 | the FiveTypes loop picks the same parser as the haunch loop for every shape |
| BeamSection.TaperPartSection | stbParser/beam_section_extractor.py:405-433 | the taper loop's parser; a pipe also carries the taper element's strength, SN400B by default |
| BeamSection.ResolvePart | stbParser/beam_section_extractor.py:173-233 | an element contributes exactly when pos and shape are non-empty, the shape is cached and its section is non-empty; it gives the pos and the section labelled with the shape name |
| BeamSection.PartResolutions | stbParser/beam_section_extractor.py:167-233 | one resolution per element, in document order |
| BeamSection.PosMapLast | stbParser/beam_section_extractor.py:167-233 | a position is kept exactly when some element resolves to it, and holds the last such element's section |
| BeamSection.PartsNonEmpty | stbParser/beam_section_extractor.py:72-80 | the part map is non-empty exactly when some element resolves |
| BeamSection.CollectParts | stbParser/beam_section_extractor.py:167-450 | the per-position loops leave exactly the map of the last resolving element at each position |
| BeamSection.FiveNormalizeIsIdentity | stbParser/beam_section_extractor.py:374-380 | rebuilding a FiveTypes map with only START, CENTER and END keeps it unchanged as a map |
| BeamSection.HaunchSection | stbParser/beam_section_extractor.py:67-83 | a haunch or joint beam is HAUNCH exactly when at least one part resolved |
| BeamSection.FiveSection | stbParser/beam_section_extractor.py:85-100 | a FiveTypes beam is a section exactly when at least one part resolved |
| BeamSection.FiveKindIff | stbParser/beam_section_extractor.py:91-95 | a FiveTypes beam is HAUNCH_FIVE exactly when some part sits at HAUNCH_S or HAUNCH_E, else HAUNCH |
| BeamSection.TaperNeedsBothEnds | stbParser/beam_section_extractor.py:382-450 | a steel taper needs a resolving START and END; each end is the last element at that position |
| BeamSection.StraightSection | stbParser/beam_section_extractor.py:128-160 | a straight beam exists exactly when the lookup found a shape that parses; it carries both names, and a non-empty strength as its material |
| BeamSection.StampStraight | stbParser/beam_section_extractor.py:140-155 | the labels are added and the section type is kept; an empty strength adds no material |
| BeamSection.SteelFigureOf | stbParser/beam_section_extractor.py:51-130 | haunch elements win, then FiveTypes, then joint, then taper, then straight |
| BeamSection.FigureSection | stbParser/beam_section_extractor.py:67-160 | any section stored carries the beam's name |
| BeamSection.SteelBeamSection | stbParser/beam_section_extractor.py:44-165 | any section the steel pass stores for a beam carries its name |
| BeamSection.HaunchFigureDecides | stbParser/beam_section_extractor.py:67-83 | a beam with haunch elements is a HAUNCH beam or nothing, whatever other figures it has |
| BeamSection.TaperFigureNeverStraight | stbParser/beam_section_extractor.py:116-127 | a beam with only taper elements is TAPERED_S or nothing and never falls back to straight |
| BeamSection.ExtractHaunch | stbParser/beam_section_extractor.py:167-233 | the haunch and joint loops give exactly the HAUNCH section the function defines |
| BeamSection.ExtractFive | stbParser/beam_section_extractor.py:304-380 | the FiveTypes loop gives exactly the FiveTypes section |
| BeamSection.ExtractTaper | stbParser/beam_section_extractor.py:382-450 | the taper loop keeps the last START and the last END |
| BeamSection.ExtractFigure | stbParser/beam_section_extractor.py:67-160 | the if/elif chain gives exactly the figure's section |
| BeamSection.ExtractSteelBeam | stbParser/beam_section_extractor.py:44-165 | the per-beam body gives exactly the beam's section |
| BeamSection.RcRect | stbParser/beam_section_extractor.py:462-475 | every RC part is a RECTANGLE of the given width and height, marked RC, without concrete strength |
| BeamSection.RcPart | stbParser/beam_section_extractor.py:452-476 | an element missing pos, width or depth is skipped; an unparsable width or depth raises ValueError |
| BeamSection.RcResolutions | stbParser/beam_section_extractor.py:452-476 | one resolution per RC element, in order |
| BeamSection.RcFoldOk | stbParser/beam_section_extractor.py:452-476 | the loop succeeds exactly when no element raised |
| BeamSection.RcFoldKeys | stbParser/beam_section_extractor.py:452-476 | after a successful loop a position is kept exactly when some element resolved to it |
| BeamSection.RcPartsOk | stbParser/beam_section_extractor.py:452-476 | the RC loops succeed exactly when no complete element has an unparsable width or depth |
| BeamSection.RcPartsKeys | stbParser/beam_section_extractor.py:452-476 | a position is kept exactly when some complete element names it |
| BeamSection.RcStraight | stbParser/beam_section_extractor.py:597-633 | an RC straight figure exists exactly when width and depth are non-empty and parse; strength is copied exactly when non-empty |
| BeamSection.RcAfterHaunch | stbParser/beam_section_extractor.py:514-595 | after an empty RC haunch: a taper, complete or nothing, else the straight figure; anything stored carries the name |
| BeamSection.RcBeamSection | stbParser/beam_section_extractor.py:484-595 | a resolving haunch wins, then taper, then straight; anything stored carries the name |
| BeamSection.IncompleteRcTaperStoresNothing | stbParser/beam_section_extractor.py:514-565 | with taper elements and no resolving haunch, an RC beam is TAPERED_RC or nothing and never straight |
| BeamSection.UnparsableRcHaunchRaises | stbParser/beam_section_extractor.py:466-470 | a complete RC haunch element with an unparsable width or depth aborts the extraction |
| BeamSection.RcPassErrorSticks | stbParser/beam_section_extractor.py:478-595 | once part of the pass has raised, the whole pass raises the same error |
| BeamSection.IdLessRcBeamSkipped | stbParser/beam_section_extractor.py:484-490 | a section without an id never raises and never stores |
| BeamSection.ExtractRcBeams | stbParser/beam_section_extractor.py:478-595 | the RC loop gives exactly the pass, and an error from any beam leaves it |
| BeamSection.ExtractBeamSections | stbParser/beam_section_extractor.py:17-36 | steel pass then RC pass on the steel cache; no StbSections gives an empty map |
| BeamSection.RcPassKeepsOthers | stbParser/beam_section_extractor.py:17-36 | a steel beam survives the RC pass unless an RC beam stores under the same id or the pass raises |
| SrcSection.SameShape | stbParser/src_section_extractor.py:202-260 | a SameShape element gives a part exactly when its shape is non-empty, cached and parses; the encasement defaults to ENCASEDANDINFILLED |
| SrcSection.SrcPair | stbParser/src_section_extractor.py:275-342 | a T or Cross pair needs both shape names non-empty, cached and parsed as H shapes, and is then a T_COMPOSITE or CROSS_COMPOSITE |
| SrcSection.SrcSameSteel | stbParser/src_section_extractor.py:195-273 | H, then BOX, then PIPE, each falling through when it does not resolve; then T and Cross, each deciding alone |
| SrcSection.SameSteelKinds | stbParser/src_section_extractor.py:195-273 | whatever the cascade yields is an H, BOX or PIPE shape or a T or Cross composite |
| SrcSection.SrcSteelPart | stbParser/src_section_extractor.py:171-193 | only a Same configuration gives a steel part; NotSame or neither gives nothing |
| SrcSection.NotSameUnsupported | stbParser/src_section_extractor.py:186-190 | a NotSame figure without a Same child never yields a steel part, so the column is not stored |
| SrcSection.SrcColumnSection | stbParser/src_section_extractor.py:41-86 | an SRC column is stored exactly when its RC and steel parts are found; concrete strength defaults to Fc21 |
| SrcSection.BeamRectSizes | stbParser/src_section_extractor.py:380-402 | an SRC beam's width and depth are used only when both are non-zero; no figure gives nothing |
| SrcSection.SrcBeamRcPart | stbParser/src_section_extractor.py:380-402 | the RC part exists exactly when both sizes are truthy; it is an RC RECTANGLE whose height is the depth |
| SrcSection.SrcBeamSteelPart | stbParser/src_section_extractor.py:404-429 | the Same element's shape, cached and parsed, with encasement ENCASED and strength SN400B by default |
| SrcSection.SrcBeamRebar | stbParser/src_section_extractor.py:431-440 | a fixed rebar marker exactly when a bar arrangement is present |
| SrcSection.SrcBeamSection | stbParser/src_section_extractor.py:88-133 | an SRC beam is stored exactly when its RC and steel parts are found; concrete strength defaults to Fc21 |
| SrcSection.ConcreteDefaultsToFc21 | stbParser/src_section_extractor.py:50-97 | a stored SRC column or beam without `strength_concrete` records Fc21 |
| SrcSection.SrcSectionsKeys | stbParser/src_section_extractor.py:20-39 | an id is stored exactly when some SRC column or beam with that id has both parts |
| SrcSection.ExtractSrcSections | stbParser/src_section_extractor.py:20-39 | the column pass then the beam pass; no StbSections gives no sections |
| SlabSection.LastPos | stbParser/slab_section_extractor.py:70-78 | the last taper element at the position, and none exactly when no element is there |
| SlabSection.FindTaperEnds | stbParser/slab_section_extractor.py:63-78 | the taper loop remembers the last BASE and the last TIP element |
| SlabSection.DepthSourceOf | stbParser/slab_section_extractor.py:50-95 | a Straight figure decides alone; otherwise BASE is preferred to TIP |
| SlabSection.RcSlabSection | stbParser/slab_section_extractor.py:40-115 | a slab is stored exactly when the chosen depth parses; the thickness is that depth, and `strength_concrete` is present exactly when non-empty |
| SlabSection.ProductInfo | stbParser/slab_section_extractor.py:166-175 | product code "Undefined" and deck depth 0.0 unless the product element gives them |
| SlabSection.DeckSection | stbParser/slab_section_extractor.py:139-192 | a deck slab is stored exactly when the DeckStraight depth parses; product type defaults to FLAT |
| SlabSection.SlabSectionsKeys | stbParser/slab_section_extractor.py:17-38 | an id is present exactly when an RC or deck slab stores under it; a deck section replaces an RC one with the same id |
| SlabSection.ExtractDeckSections | stbParser/slab_section_extractor.py:117-137 | the deck loop stores each truthy section under its non-empty id |
| SlabSection.ExtractSlabSections | stbParser/slab_section_extractor.py:17-38 | the RC pass merged with the deck pass |
| WallSection.RcWallSection | stbParser/wall_section_extractor.py:29-69 | a wall is stored exactly when the Straight figure's `t` parses, even when it is zero; the strength is copied exactly when non-empty |
| WallSection.ExtractWallSections | stbParser/wall_section_extractor.py:17-27 | every stored id belongs to a wall section with a readable thickness |
| BraceSection.SteelBraceSection | stbParser/brace_section_extractor.py:28-56 | a brace needs a Same element whose shape is cached and parses; it carries a steel type, the brace's name and the Same element's strength |
| BraceSection.ExtractBraceSections | stbParser/brace_section_extractor.py:16-26 | every stored id belongs to a brace whose Same shape parses |
| FootingSection.Dim | stbParser/footing_section_extractor.py:80-114 | an absent or unparsable dimension counts as 0.0 |
| FootingSection.FoundationRect | stbParser/footing_section_extractor.py:80-114 | a foundation rectangle exists exactly when width_X, width_Y and depth are all positive; it gives both spellings of the widths and the depth as thickness |
| FootingSection.MissingDimensionRejected | stbParser/footing_section_extractor.py:80-114 | a rectangle missing any of its three dimensions is rejected |
| FootingSection.Labelled | stbParser/footing_section_extractor.py:29-78 | the rectangle gains the section's id and name, and the concrete strength exactly when non-empty |
| FootingSection.RcFoundationSection | stbParser/footing_section_extractor.py:29-78 | a foundation is stored exactly when its Rect is valid, labelled with id, name and non-empty strength |
| FootingSection.ExtractFootingSections | stbParser/footing_section_extractor.py:12-27 | every stored id belongs to a foundation with a valid rectangle |
| PileSection.FirstParsedSpec | stbParser/pile_section_extractor.py:92-115 | the first attribute that parses decides, and every earlier one does not parse |
| PileSection.DiameterOverSpec | stbParser/pile_section_extractor.py:92-115 | the first child tag with a readable diameter decides, and every earlier tag is absent or unreadable |
| PileSection.Diameter | stbParser/pile_section_extractor.py:92-115 | no figure element gives no diameter |
| PileSection.ParseDiameter | stbParser/pile_section_extractor.py:92-115 | the nested loops return exactly the first readable diameter over tags, then attributes |
| PileSection.RcFallsBackToDAxial | stbParser/pile_section_extractor.py:18-70 | an RC pile whose first present child has no usable D uses that child's D_axial |
| PileSection.PileSectionOf | stbParser/pile_section_extractor.py:71-90 | a pile is stored exactly for a non-zero diameter, as a CIRCLE of half that diameter |
| PileSection.PileGroupStep | stbParser/pile_section_extractor.py:71-90 | one more pile is stored under its id exactly when the id is non-empty and the diameter non-zero |
| PileSection.ExtractPileGroup | stbParser/pile_section_extractor.py:71-90 | the loop of one kind stores exactly the fold of its piles |
| PileSection.PileSectionsKeys | stbParser/pile_section_extractor.py:18-70 | a pile id is present exactly when one of the three kinds stores under it |
| PileSection.ExtractPileSections | stbParser/pile_section_extractor.py:18-70 | the three kinds run in table order, each merged with `update` |
| BaseExtractor.StoryFloorSpec | stbParser/beam_extractor.py:286-303 | the floor is the `floor` attribute when set; otherwise only ever a known non-empty story of the start node |
| BaseExtractor.WithFloor | stbParser/beam_extractor.py:286-303 | a found floor is stored under `floor`; every other key is kept |
| BaseExtractor.WithSections | stbParser/beam_extractor.py:312-318 | a tapered section goes to the start and end keys, any other section to `section` |
| BaseExtractor.WithSectionsKeeps | stbParser/beam_extractor.py:312-318 | adding the section keys leaves every other key as it was |
| BaseExtractor.CollectOk | stbParser/base_extractor.py:100-140 | the container pass succeeds exactly when every element's extraction does |
| BaseExtractor.CollectFrom | stbParser/base_extractor.py:100-140 | every definition in the list comes from the result of one of the elements |
| BaseExtractor.ElementsData | stbParser/base_extractor.py:42-91 | no StbMembers gives an empty list |
| BaseExtractor.TwoContainersInOrder | stbParser/base_extractor.py:73-82 | with two containers the list is the first container's followed by the second's |
| BaseExtractor.CollectElements | stbParser/base_extractor.py:121-133 | the element loop gives exactly the spliced results in order |
| BaseExtractor.ExtractFromContainer | stbParser/base_extractor.py:100-140 | an absent container gives an empty list; otherwise its elements' results in order |
| BaseExtractor.CollectErrStays | stbParser/base_extractor.py:121-133 | once an element has raised, further elements keep the same error |
| BaseExtractor.AllContainersStopsAt | stbParser/base_extractor.py:73-82 | a failing container ends the pass with its error |
| BaseExtractor.ExtractContainers | stbParser/base_extractor.py:73-82 | the container loop gives exactly the concatenated lists |
| BaseExtractor.ExtractElements | stbParser/base_extractor.py:42-91 | the story map is built once and the containers visited in order |
| BaseExtractor.AllContainersErrStays | stbParser/base_extractor.py:73-82 | once a container has failed, later containers keep the same error |
| BeamExtractor.Ctx | stbParser/beam_extractor.py:51-80 | the beam's name defaults to `{beam_type}_{id}` and its floor is the story floor of its start node |
| BeamExtractor.LengthAndDirection | stbParser/beam_extractor.py:334-350 | a zero length gives direction (1, 0, 0) |
| BeamExtractor.LengthAndDirectionReachEnd | stbParser/beam_extractor.py:334-350 | walking the length along the direction leads from the start to the end |
| BeamExtractor.SegmentPointsNames | stbParser/beam_extractor.py:365-417 | each of START, CENTER and END exists exactly when its length is positive, in that order |
| BeamExtractor.SegmentsContiguous | stbParser/beam_extractor.py:365-417 | the segments start at the start node, each begins where the previous ends, and together they span the positive lengths |
| BeamExtractor.SegmentsReachEnd | stbParser/beam_extractor.py:133-175 | with non-negative haunches shorter than the beam, the last segment ends at the end node |
| BeamExtractor.SegmentSection | stbParser/beam_extractor.py:176-195 | a segment uses its own section; a CENTER without one borrows START or END when that haunch is zero; otherwise it is skipped |
| BeamExtractor.CenterBorrowsStart | stbParser/beam_extractor.py:181-182 | a CENTER without its own section uses START when there is no start haunch |
| BeamExtractor.CenterBorrowsEnd | stbParser/beam_extractor.py:183-184 | otherwise it uses END when there is no end haunch |
| BeamExtractor.SegmentDict | stbParser/beam_extractor.py:196-235 | a segment definition has its name, tag, points, section, type, index and guids, and a floor exactly when one was found |
| BeamExtractor.SegmentDefsHas | stbParser/beam_extractor.py:176-240 | every segment with a section gives its definition |
| BeamExtractor.SegmentDefsFrom | stbParser/beam_extractor.py:176-240 | every definition is that of one segment with a section, under its index |
| BeamExtractor.BuildSegmentDefs | stbParser/beam_extractor.py:176-240 | the segment loop gives exactly the definitions of the segments with sections |
| BeamExtractor.HaunchSections | stbParser/beam_extractor.py:149 | a missing `haunch_sections` key is a KeyError |
| BeamExtractor.HaunchTooShort | stbParser/beam_extractor.py:155-162 | a beam not longer than its two haunches gives no definition |
| BeamExtractor.NormalDict | stbParser/beam_extractor.py:257-311 | a plain beam definition has its name, tag and points, and a floor exactly when one was found |
| BeamExtractor.NormalDef | stbParser/beam_extractor.py:257-318 | the plain definition succeeds exactly when the node offsets can be applied |
| BeamExtractor.ShapeFallbackUnreachable | stbParser/beam_extractor.py:85-109 | once the references are valid the section is found, so the lookup by shape name never runs |
| BeamExtractor.InvalidRefsGiveNothing | stbParser/beam_extractor.py:85-88 | invalid node or section references give an empty list |
| BeamExtractor.NormalBeamDef | stbParser/beam_extractor.py:110-131 | a beam whose section is not a haunch gives exactly one definition with its offset ends, floor and section keys |
| BeamExtractor.NormalDefShape | stbParser/beam_extractor.py:312-318 | the plain definition keeps its points and floor whatever section keys it receives |
| BeamExtractor.ExtractBeams | stbParser/beam_extractor.py:19-34 | girders, then beams, through the common container pass |
| ColumnExtractor.ColumnBase | stbParser/column_extractor.py:110-150 | a column has its points, name (default `{column_type}_{id}`), rotation in degrees and radians and reference-direction flag, and a floor exactly when one was found |
| ColumnExtractor.ColumnDictSpec | stbParser/column_extractor.py:110-160 | the definition keeps those keys whichever section keys it receives |
| ColumnExtractor.ColumnSectionKnown | stbParser/column_extractor.py:196-227 | valid references mean the section id is known |
| ColumnExtractor.MissingRefsGiveNone | stbParser/column_extractor.py:100-108 | a missing bottom node, top node or section gives no definition |
| ColumnExtractor.NoRotateIsZero | stbParser/column_extractor.py:84-85 | without a rotate attribute the column has 0 degrees and 0 radians |
| ColumnExtractor.ExtractColumns | stbParser/column_extractor.py:18-33 | columns, then posts, through the common container pass |
| BraceExtractor.BraceRefsAgree | stbParser/brace_extractor.py:115-139 | the brace's own check accepts exactly what the shared validation accepts |
| BraceExtractor.BraceDict | stbParser/brace_extractor.py:42-88 | the name defaults to `Brace_{id}`, the tag is `STB_BR_{id}`, and a floor is present exactly when one was found |
| BraceExtractor.SingleBrace | stbParser/brace_extractor.py:42-88 | a missing node or section gives None; an unreadable offset raises; otherwise one definition between the offset ends |
| BraceExtractor.BraceEndsAreOffsetNodes | stbParser/brace_extractor.py:90-113 | each end is its node moved by that end's three offsets, a missing one counting as zero |
| BraceExtractor.ExtractBraces | stbParser/brace_extractor.py:16-20 | the braces through the common container pass |
| NodeExtractor.Coord | stbParser/node_extractor.py:40-43 | an absent or unreadable coordinate gives nothing; otherwise its number |
| NodeExtractor.NodePoint | stbParser/node_extractor.py:40-43 | a node has a point exactly when X, Y and Z are all read |
| NodeExtractor.NodesOfKeys | stbParser/node_extractor.py:33-51 | an id is in the table exactly when some node with that id is kept |
| NodeExtractor.NodesOfLast | stbParser/node_extractor.py:33-51 | the point under an id is that of the last node kept under it |
| NodeExtractor.ExtractNodes | stbParser/node_extractor.py:20-53 | the loop gives exactly the node table; no StbNodes gives an empty table |
| NodeExtractor.UnreadableCoordinateSkipped | stbParser/node_extractor.py:45-51 | a node whose Y cannot be read is skipped even when X and Z can |
| FootingExtractor.FootingSectionShape | stbParser/footing_extractor.py:140-162 | a CIRCLE section keeps only its radius; every other type, unknown ones included, becomes the default rectangle |
| FootingExtractor.Thickness | stbParser/footing_extractor.py:164-168 | the depth, else the thickness, else 600, read as a float |
| FootingExtractor.ReadPlacement | stbParser/footing_extractor.py:80-87 | the offsets, bottom level and rotation default to 0; the read succeeds exactly when each present one is readable |
| FootingExtractor.FootingFloor | stbParser/footing_extractor.py:123-134 | the floor attribute when set, else "GL" |
| FootingExtractor.FootingDict | stbParser/footing_extractor.py:88-135 | a footing has its name (default `Footing_{id}`), offset bottom point, node, section, thickness and floor |
| FootingExtractor.SingleFooting | stbParser/footing_extractor.py:44-138 | a missing or unknown node or section gives None; an unreadable number raises; otherwise one definition |
| FootingExtractor.FootingOnNode | stbParser/footing_extractor.py:88-92 | without offsets or a bottom level the footing sits on its node |
| FootingExtractor.DefaultThickness | stbParser/footing_extractor.py:164-168 | a section without depth or thickness gives thickness 600 |
| FootingExtractor.ExtractFootings | stbParser/footing_extractor.py:16-29 | the footings through the common container pass |
| FoundationColumnExtractor.FdInfo | stbParser/foundation_column_extractor.py:95-110 | the FD entry exists exactly when its id is non-empty, not "0" and names a known section |
| FoundationColumnExtractor.WrInfo | stbParser/foundation_column_extractor.py:150-160 | the WR entry exists exactly when its id is non-empty and names a known section |
| FoundationColumnExtractor.Reading | stbParser/foundation_column_extractor.py:106-160 | an unread number is 0; a read one must be readable |
| FoundationColumnExtractor.ReadNumbersIff | stbParser/foundation_column_extractor.py:106-160 | the numbers are read exactly when every number that is read is readable; an absent part's lengths are 0 |
| FoundationColumnExtractor.Primary | stbParser/foundation_column_extractor.py:168-171 | the WR entry when it is non-empty, else the FD entry |
| FoundationColumnExtractor.PrimaryGet | stbParser/foundation_column_extractor.py:198-219 | a key of the primary section, or the default when that section is empty |
| FoundationColumnExtractor.WithWr | stbParser/foundation_column_extractor.py:224-232 | a WR part is added under `wr_section` exactly when present; other keys are kept |
| FoundationColumnExtractor.FcDict | stbParser/foundation_column_extractor.py:173-250 | the column stands on its node moved by the FD offsets, takes the primary section and its length, and has a WR part exactly when WR is present |
| FoundationColumnExtractor.SingleFoundationColumn | stbParser/foundation_column_extractor.py:48-267 | an unknown node, no section or an unreadable number skips the column; it never raises |
| FoundationColumnExtractor.FoundationColumnDefined | stbParser/foundation_column_extractor.py:48-267 | a column is defined exactly when its node is known, it has a section and its numbers read |
| FoundationColumnExtractor.WallRiseIsPrimary | stbParser/foundation_column_extractor.py:168-232 | with a non-empty WR entry, WR is the section, its length the depth, and the WR part is kept |
| FoundationColumnExtractor.FoundationOnly | stbParser/foundation_column_extractor.py:168-232 | without WR the FD entry is the section and its length the depth, with no WR part |
| FoundationColumnExtractor.FoundationColumnPosition | stbParser/foundation_column_extractor.py:173-197 | the column stands on its node, moved in plan by the FD offsets only |
| FoundationColumnExtractor.FoundationColumnFloor | stbParser/foundation_column_extractor.py:234-250 | a floor is present exactly when the attribute or the node's story gives one |
| FoundationColumnExtractor.ExtractFoundationColumns | stbParser/foundation_column_extractor.py:18-33 | the foundation columns through the common container pass |
| PileExtractor.LevelTop | stbParser/pile_extractor.py:55 | the top level defaults to the node's height; an unreadable value raises |
| PileExtractor.BottomZ | stbParser/pile_extractor.py:56-63 | the bottom is the top less a readable non-empty length, else the top itself |
| PileExtractor.PileFloor | stbParser/pile_extractor.py:92-99 | the floor attribute when set, else "GL" |
| PileExtractor.PileEnds | stbParser/pile_extractor.py:53-75 | the ends exist exactly when offsets and top level read; the top is the offset node at the top level |
| PileExtractor.PileIsVertical | stbParser/pile_extractor.py:53-75 | both ends share their plan position, and the drop is the readable length, else none |
| PileExtractor.SinglePile | stbParser/pile_extractor.py:36-104 | an unknown node or section gives None; an unreadable offset or top level raises; otherwise one definition |
| PileExtractor.PileDefaultsToNodeHeight | stbParser/pile_extractor.py:55-63 | without level_top and length_all both ends are at the node's height |
| PileExtractor.ExtractPiles | stbParser/pile_extractor.py:18-23 | the piles through the common container pass |
| SlabExtractor.SlabSection | stbParser/slab_extractor.py:80-82 | the section entry with every key kept, given a width and a depth only when it lacks them |
| SlabExtractor.SlabFloor | stbParser/slab_extractor.py:98-121 | the floor attribute, else the first node's story, else "GL" |
| SlabExtractor.SlabDict | stbParser/slab_extractor.py:69-121 | the slab's centre is the mean of its corrected nodes; its section gets their plan width and depth; it always has a floor |
| SlabExtractor.SingleSlab | stbParser/slab_extractor.py:39-123 | without node text or a section id the slab is skipped; an unreadable offset raises; otherwise at most one definition |
| SlabExtractor.SlabDefined | stbParser/slab_extractor.py:39-123 | a slab is defined exactly when its node text has an id, its section is known, its offsets read and one node is known |
| SlabExtractor.SlabCenterInBox | stbParser/slab_extractor.py:69-78 | a defined slab's centre lies within the bounding box of its corrected nodes |
| SlabExtractor.SlabAlwaysHasFloor | stbParser/slab_extractor.py:113-121 | a slab without floor attribute or node story gets "GL" |
| SlabExtractor.ExtractSlabs | stbParser/slab_extractor.py:17-24 | the slabs through the common container pass |
| WallExtractor.KeptEdges | stbParser/wall_extractor.py:71-78 | the kept edges are among the first four and all have positive length |
| WallExtractor.PositiveEdgeKept | stbParser/wall_extractor.py:77-78 | every edge of positive length is kept |
| WallExtractor.BottomEdges | stbParser/wall_extractor.py:71-78 | the edge loop gives exactly the kept edges |
| WallExtractor.Longest | stbParser/wall_extractor.py:82 | a longest edge, no shorter than any other |
| WallExtractor.LongestIsFirst | stbParser/wall_extractor.py:82 | of several longest edges `max` returns the first |
| WallExtractor.DirectionEdgeLongest | stbParser/wall_extractor.py:81-104 | the wall length is positive and no shorter than any bottom edge, unless every edge is degenerate |
| WallExtractor.Direction | stbParser/wall_extractor.py:118-120 | a non-positive length keeps the direction (1, 0, 0) |
| WallExtractor.DirectionScalesToEdge | stbParser/wall_extractor.py:118-120 | the direction is horizontal and scaled by the length gives back the edge |
| WallExtractor.WallHeight | stbParser/wall_extractor.py:107-115 | never negative; with eight or more nodes the rise between node 0 and node 4, with six or seven between node 0 and node 3, otherwise the spread of all heights |
| WallExtractor.FewNodesHeightCovers | stbParser/wall_extractor.py:113-115 | with four or five nodes no two heights differ by more than the wall height |
| WallExtractor.ParseOpening | stbParser/wall_extractor.py:300-340 | an opening sits at the reference node moved along x and up by its position; an unreadable number gives None |
| WallExtractor.OpeningsOf | stbParser/wall_extractor.py:286-298 | every opening kept has an id that the wall lists |
| WallExtractor.ListedOpeningKept | stbParser/wall_extractor.py:286-298 | every listed opening that parses is kept |
| WallExtractor.CollectOpenings | stbParser/wall_extractor.py:288-296 | the StbOpen loop gives exactly the listed openings that parse, in order |
| WallExtractor.WallOpenings | stbParser/wall_extractor.py:254-298 | without an StbOpenIdList, listed ids or StbOpens a wall has no openings |
| WallExtractor.OpeningsAreListed | stbParser/wall_extractor.py:254-298 | every opening of a wall is one its StbOpenIdList names |
| WallExtractor.ExtractWallOpenings | stbParser/wall_extractor.py:254-298 | the method gives exactly the wall's openings |
| WallExtractor.WallSection | stbParser/wall_extractor.py:126-128 | the section entry with every key kept, given a length and a height only when it lacks them |
| WallExtractor.WallDict | stbParser/wall_extractor.py:63-170 | the centre of the first four nodes, the unit direction of the direction edge, the section with length and height, and the openings |
| WallExtractor.SingleWall | stbParser/wall_extractor.py:39-176 | without StbNodeIdOrder or a section id the wall is skipped; an unreadable offset raises; otherwise at most one definition |
| WallExtractor.WallDefined | stbParser/wall_extractor.py:39-176 | a wall is defined exactly when its order has text, offsets read, four nodes are known and the section is known |
| WallExtractor.WallWithoutOffsetsKeepsNodes | stbParser/wall_extractor.py:178-252 | without an offset list the corner nodes are the known nodes as they are |
| WallExtractor.ExtractWalls | stbParser/wall_extractor.py:17-24 | the walls through the common container pass |
| SurfaceNodes.TableErrStays | stbParser/wall_extractor.py:205-212 | once reading the offset entries has failed, further entries keep the same error |
| SurfaceNodes.TableOk | stbParser/wall_extractor.py:205-212 | the offset table is built exactly when every entry is readable |
| SurfaceNodes.TableKeys | stbParser/wall_extractor.py:205-212 | a node is in the table exactly when some entry names it |
| SurfaceNodes.TableLast | stbParser/wall_extractor.py:205-212 | a node's offset is that of the last entry naming it |
| SurfaceNodes.BuildTable | stbParser/wall_extractor.py:205-212 | the entry loop gives exactly the table |
| SurfaceNodes.Known | stbParser/wall_extractor.py:194-202 | the known nodes in order; never more than the ids |
| SurfaceNodes.Corrected | stbParser/wall_extractor.py:220-235 | the known nodes each moved by its offset; never more than the ids |
| SurfaceNodes.EmptyTableKeepsNodes | stbParser/wall_extractor.py:220-235 | an empty table leaves the known nodes unchanged |
| SurfaceNodes.AllKnownCorrected | stbParser/wall_extractor.py:220-235 | when every id is known, the i-th corrected node is the i-th node moved by its offset |
| SurfaceNodes.ApplyOffsets | stbParser/wall_extractor.py:220-235 | the correcting loop gives exactly the corrected nodes |
| SurfaceNodes.CorrectedNodes | stbParser/slab_extractor.py:125-201 | without the offset list the known nodes as they are, otherwise each moved by its offset |
| SurfaceNodes.CorrectedNodesFail | stbParser/slab_extractor.py:125-201 | correcting fails exactly on an unreadable offset entry |
| SurfaceNodes.ApplyNodeOffsetList | stbParser/wall_extractor.py:178-252 | the method gives exactly the corrected nodes |
| SurfaceNodes.MaxOf | stbParser/slab_extractor.py:73-78 | `max` is a member no smaller than any |
| SurfaceNodes.MinOf | stbParser/slab_extractor.py:73-78 | `min` is a member no larger than any |
| SurfaceNodes.MeanWithin | stbParser/slab_extractor.py:70-72 | the mean lies between the smallest and the largest value |
| SurfaceNodes.CenterInBox | stbParser/slab_extractor.py:70-72 | the centre lies in the bounding box of the points |
| SurfaceNodes.Extent | stbParser/slab_extractor.py:73-78 | `max - min` is never negative and no two values are further apart |
| ExtractorUtils.OffsetAttr | common/extractor_utils.py:42-48 | an absent offset is 0; a present one must be readable and gives its number |
| ExtractorUtils.Offsets | common/extractor_utils.py:42-48 | one end's three offsets read exactly when each is readable |
| ExtractorUtils.EndNode | common/extractor_utils.py:51-52 | a missing node attribute or unknown id is a KeyError; otherwise the node |
| ExtractorUtils.ApplyNodeOffsets | common/extractor_utils.py:18-110 | the six offsets and both nodes must read; each corrected end is its node moved by its offsets (with the start/end or the bottom/top keys) |
| ExtractorUtils.NoOffsetsKeepNodes | common/extractor_utils.py:18-88 | without offset attributes both ends are exactly their nodes |
| ExtractorUtils.UnreadableOffsetFails | common/extractor_utils.py:42-48 | an unreadable offset is an error even when both nodes exist |
| ExtractorUtils.MissingNodes | common/extractor_utils.py:140-143 | a node reference is reported exactly when it is absent or unknown |
| ExtractorUtils.MissingSections | common/extractor_utils.py:145-147 | a section reference is reported exactly when it is absent or unknown |
| ExtractorUtils.ValidateElementDataIff | common/extractor_utils.py:116-158 | the check holds exactly when every node and section id is given and known |
| ExtractorUtils.Radians | common/extractor_utils.py:165-175 | zero degrees is zero radians and a positive angle stays positive |
| ExtractorUtils.DegreesRadiansRoundTrip | common/extractor_utils.py:165-187 | the two conversions undo each other |
| ExtractorUtils.TruthyIdsSpec | common/extractor_utils.py:215-219 | a node id is listed exactly when some StbNodeId carries it non-empty |
| ExtractorUtils.AssignedKeys | common/extractor_utils.py:212-219 | a node is mapped exactly when some story lists it |
| ExtractorUtils.AssignedLast | common/extractor_utils.py:212-219 | a node is mapped to the name of the last story listing it |
| ExtractorUtils.StoryEntries | common/extractor_utils.py:212-215 | each story's node ids and name (default "Unknown"), in document order |
| ExtractorUtils.NodeStoryMapKeys | common/extractor_utils.py:193-224 | a node is in the story map exactly when some story lists it |
| ExtractorUtils.NodeStoryMapLast | common/extractor_utils.py:193-224 | a node's story is the last story listing it |
| ExtractorUtils.AssignStory | common/extractor_utils.py:216-219 | the inner loop maps every listed id of one story to its name |
| ExtractorUtils.CreateNodeStoryMap | common/extractor_utils.py:193-224 | the loops give exactly the story map; no StbStories gives an empty map |
| ConcreteStrength.RegexBody | common/concrete_strength_utils.py:9-48 | the captured text follows "Fc" and excludes one final line feed |
| ConcreteStrength.DecimalParses | common/concrete_strength_utils.py:9-48 | `float` never fails on the captured digits, so the except branch is dead |
| ConcreteStrength.ExtractStrengthValue | common/concrete_strength_utils.py:9-48 | None or "" gives None; an Fc match gives its number; otherwise `float(s)` or None |
| ConcreteStrength.FcNumeral | common/concrete_strength_utils.py:9-48 | "Fc", "FC", "fc" or "fC" followed by a natural number reads as that number |
| ConcreteStrength.FcNumeralLineFeed | common/concrete_strength_utils.py:9-48 | "Fc21\n" still reads as 21, since `$` accepts one final line feed |
| ConcreteStrength.BareNumeral | common/concrete_strength_utils.py:9-48 | a bare number reads as itself |
| ConcreteStrength.InvalidIsNone | common/concrete_strength_utils.py:9-48 | "invalid" reads as None |
| ConcreteStrength.ToPascals | common/concrete_strength_utils.py:50-68 | 1 N/mm² is 1,000,000 Pa; the conversion can be divided back |
| ConcreteStrength.FormatName | common/concrete_strength_utils.py:70-98 | empty gives "Concrete"; every other name starts with "Concrete_" and ends with the input |
| ConcreteStrength.FormatBareOnlyForEmpty | common/concrete_strength_utils.py:70-98 | only the empty input gives "Concrete" |
| ConcreteStrength.FormatIdempotent | common/concrete_strength_utils.py:70-98 | formatting a non-empty name twice changes nothing more |
| ConcreteStrength.FormatNumeral | common/concrete_strength_utils.py:70-98 | a bare number becomes "Concrete_Fc" and that number |
| ConcreteStrength.ParseInfo | common/concrete_strength_utils.py:100-128 | the name, the strength and the pascals, the last present exactly when the strength is |
| ConcreteStrength.InfoFc21 | common/concrete_strength_utils.py:100-128 | "Fc21" gives ("Concrete_Fc21", 21, 21 000 000) |
| ConcreteStrength.InfoInvalid | common/concrete_strength_utils.py:100-128 | "invalid" gives ("Concrete_invalid", None, None) |
| GuidUtils.ConvertStbGuidToIfc | common/guid_utils.py:23-30 | an absent or empty GUID, or one whose cleaned form is not 32 characters long, raises ValueError; otherwise the compressor gets the cleaned form |
| GuidUtils.CompressedTextHasNoHyphen | common/guid_utils.py:26 | the text the compressor receives has no hyphen |
| GuidUtils.HyphenatedGuidAccepted | common/guid_utils.py:23-30 | the 8-4-4-4-12 form is accepted and the compressor gets its 32 digits |
| GuidUtils.NonHexReachesCompressor | common/guid_utils.py:27-30 | only the length is checked: 32 non-hexadecimal characters still reach the compressor |
| XmlUtils.ParseXmlString | common/xml_utils.py:13-27 | the root, or None exactly when the text does not parse |
| XmlUtils.NamespaceUri | common/xml_utils.py:29-42 | the URI is the text before the first '}' without its first character |
| XmlUtils.ExtractNamespaces | common/xml_utils.py:29-42 | a qualified root tag gives its URI under "stb" and the default prefix; otherwise no namespaces |
| XmlUtils.NamespaceOfQualified | common/xml_utils.py:29-42 | the URI of a root tagged `{uri}Local` is `uri` |
| XmlUtils.StripPrefix | common/xml_utils.py:44-76 | without namespaces `.//stb:Name` becomes `.//Name` |
| XmlUtils.StepTag | common/xml_utils.py:44-76 | with a map a step matches `{uri}Name`; without one, `Name`; a map lacking "stb" raises |
| XmlUtils.Tagged | common/xml_utils.py:61-76 | exactly the elements with that tag, in order |
| XmlUtils.FindElementsSafe | common/xml_utils.py:61-76 | every descendant with the step's tag, in document order; an error exactly when the prefix is unknown |
| XmlUtils.FindElementSafe | common/xml_utils.py:44-59 | the first of those, and None exactly when there are none |
| XmlUtils.ValidateXmlStructure | common/xml_utils.py:94-111 | true exactly when some element below the root is an StbModel |
| XmlUtils.NamespacedDocumentCheck | common/xml_utils.py:94-111 | a namespaced document checked with its own namespaces passes exactly when it holds `{uri}StbModel` |
| XmlUtils.PlainDocumentCheck | common/xml_utils.py:94-111 | a document without a namespace passes exactly when it holds `StbModel` |
| XmlParserCache.Cache.constructor | common/xml_parser_cache.py:14-18 | both maps start empty |
| XmlParserCache.Cache.KeyOf | common/xml_parser_cache.py:34-35 | the key given, or the hash of the text |
| XmlParserCache.Cache.GetOrParse | common/xml_parser_cache.py:20-66 | a cached root with a matching hash is returned unchanged; a stale entry is dropped; a successful parse is cached with its hash |
| XmlParserCache.Cache.ClearCache | common/xml_parser_cache.py:68-72 | both maps are emptied |
| XmlParserCache.Cache.CacheStats | common/xml_parser_cache.py:74-78 | the sizes of both maps, equal while the cache is consistent |
| XmlParserCache.RepeatedRequestHits | common/xml_parser_cache.py:38-46 | a second request with the same key and text returns the same root |
| XmlParserCache.ChangedContentReparses | common/xml_parser_cache.py:38-63 | changed text under the same key is parsed again and its root is then held |
| ProfileNaming.Pick | common/profile_naming_standards.py:88-139 | the primary key's value, else the secondary's, else the default |
| ProfileNaming.FloatOf | common/profile_naming_standards.py:88-139 | a number reads as itself; the read succeeds exactly when `float` accepts the value |
| ProfileNaming.FallbackName | common/profile_naming_standards.py:172-183 | the type and "Profile_", then the width (else overall width, else Unknown) and the depth (else height) joined by "x", which split back apart when neither contains "x" |
| ProfileNaming.ModernName | common/profile_naming_standards.py:141-170 | only H, I and BOX have a modern form; every other type falls back |
| ProfileNaming.StandardizedName | common/profile_naming_standards.py:51-86 | the type is upper-cased, and an unknown type falls back |
| ProfileNaming.TypeCaseIgnored | common/profile_naming_standards.py:51-86 | a lower-case type selects the same rule as the upper-case one |
| ProfileNaming.LegacyHShape | common/profile_naming_standards.py:88-139 | a legacy H name with readable sizes has the documented `H-AxBxt1xt2` shape |
| ProfileNaming.ModernRectFallsBack | common/profile_naming_standards.py:141-170 | a RECT name in modern mode is the fallback |
| ProfileNaming.SplitFour | common/profile_naming_standards.py:185-222 | four 'x'-free parts joined with 'x' split back into those parts |
| ProfileNaming.StandardizeModernH | common/profile_naming_standards.py:185-222 | standardizing a modern H name gives the legacy H name of the same sizes |
| ProfileNaming.StandardizeModernI | common/profile_naming_standards.py:185-222 | likewise for I sections |
| ProfileNaming.StandardizeModernBox | common/profile_naming_standards.py:185-222 | a modern BOX name standardizes to the legacy BOX name |
| ProfileNaming.StandardizeKeepsOthers | common/profile_naming_standards.py:185-222 | names that match no pattern are returned unchanged |
| ProfileNaming.LegacyPrefixIsStandard | common/profile_naming_standards.py:185-222 | a name with a legacy prefix matches no modern pattern |
| ProfileNaming.StandardizeIdempotent | common/profile_naming_standards.py:185-222 | standardizing twice gives the same as standardizing once |
| StructuralGeometry.Midpoint | ifcCreator/geometry/structural_geometry.py:100-102 | the centre is equally far from both ends |
| StructuralGeometry.BaseGeometry | ifcCreator/geometry/structural_geometry.py:93-120 | the centre is the midpoint; the span is the member's length; a positive span gives the unit direction that scaled by the span is the member, a zero span the kind's default; the reference direction starts as X |
| StructuralGeometry.HorizontalPerpendicular | ifcCreator/geometry/structural_geometry.py:130-139 | the horizontal perpendicular of the direction, normalised, or X when its length is at most 1e-6 |
| StructuralGeometry.PerpendicularDot | ifcCreator/geometry/structural_geometry.py:130-137 | the normalised horizontal perpendicular is orthogonal to the direction |
| StructuralGeometry.BeamReference | ifcCreator/geometry/structural_geometry.py:123-139 | X for a vertical beam, otherwise the horizontal perpendicular |
| StructuralGeometry.ColumnReference | ifcCreator/geometry/structural_geometry.py:142-160 | X when the vertical component exceeds 0.9, otherwise the horizontal perpendicular |
| StructuralGeometry.BraceReference | ifcCreator/geometry/structural_geometry.py:163-190 | Y for a level brace, X for a vertical one, otherwise the horizontal perpendicular |
| StructuralGeometry.MemberGeometry | ifcCreator/geometry/structural_geometry.py:39-91 | the base geometry with the reference direction of the member's kind |
| StructuralGeometry.CenterSymmetric | ifcCreator/geometry/structural_geometry.py:100-102 | swapping the two ends keeps the centre |
| StructuralGeometry.ZeroSpanDefaults | ifcCreator/geometry/structural_geometry.py:104-112 | a zero-length member takes its kind's default direction; the reference is then Y for beams and braces and X for columns |
| StructuralGeometry.PlumbColumnReference | ifcCreator/geometry/structural_geometry.py:142-148 | a plumb column points along Z and takes X as reference direction |
| StructuralGeometry.LevelBraceReference | ifcCreator/geometry/structural_geometry.py:170-173 | a level brace of positive length takes Y as reference direction |
| StructuralGeometry.BeamReferencePerpendicular | ifcCreator/geometry/structural_geometry.py:123-137 | a non-vertical beam's reference direction is horizontal and perpendicular to its axis |
| ProfileService.CacheKey | ifcCreator/services/profile_service.py:54-68 | the key starts with the element type and is only the element type when the section has none of the keyed attributes |
| ProfileService.KeyIgnoresOtherAttributes | ifcCreator/services/profile_service.py:54-68 | sections that agree on name, width, height and section type share a cache key whatever their other dimensions |
| ProfileService.YOffset | ifcCreator/services/profile_service.py:377-383 | a beam is offset by minus half its height (a boolean height reads as 1 or 0); a height that is not a number raises; other element types are not offset |
| ProfileService.RectangleDimensions | ifcCreator/services/profile_service.py:363-375 | width and height, each falling back to the column's width_x and width_y |
| ProfileService.ExtractDimensions | ifcCreator/services/profile_service.py:105-124 | exactly the dimension attributes the section has, with their values |
| ProfileService.RectangleOf | ifcCreator/services/profile_service.py:148-174 | a missing width or height raises ValueError; otherwise a rectangle of those sizes |
| ProfileService.CircleOf | ifcCreator/services/profile_service.py:176-196 | a missing radius raises; a beam circle is offset by minus its radius |
| ProfileService.HShapeOf | ifcCreator/services/profile_service.py:198-232 | an H profile is made only when all four H dimensions exist |
| ProfileService.BoxOf | ifcCreator/services/profile_service.py:234-266 | outer width, outer height and wall thickness fall back to width, height and thickness |
| ProfileService.ChannelOf | ifcCreator/services/profile_service.py:268-303 | a channel without a flange thickness uses its web thickness for it |
| ProfileService.PipeOf | ifcCreator/services/profile_service.py:305-332 | the pipe's radius is half its outer diameter |
| ProfileService.LShapeOf | ifcCreator/services/profile_service.py:334-361 | an angle is made only when width, height and thickness exist |
| ProfileService.SimpleProfile | ifcCreator/services/profile_service.py:70-103 | without a file a placeholder of the type, section type, name and dimensions; else the profile for the section type, rectangle for a missing or unknown one |
| ProfileService.Service.constructor | ifcCreator/services/profile_service.py:23-30 | an empty cache |
| ProfileService.Service.CreateProfile | ifcCreator/services/profile_service.py:32-52 | a cached key returns the cached profile and changes nothing; otherwise the new profile is cached under its key, and an error leaves the cache unchanged |
| ProfileService.Service.ClearCache | ifcCreator/services/profile_service.py:137-140 | the cache is empty afterwards |
| ProfileService.Service.GetCacheStats | ifcCreator/services/profile_service.py:142-144 | the cache's size and its keys in insertion order |
| ProfileService.DistinctKeysCount | ifcCreator/services/profile_service.py:142-144 | the recorded key list is as long as the cache is large |
| PropertyService.KindOf | ifcCreator/services/property_service.py:72-91 | each of beam, column, slab, wall and brace is selected exactly when the lowered element type is its name |
| PropertyService.CommonProperties | ifcCreator/services/property_service.py:105-136 | four properties: the tag as Reference, then IsExternal, LoadBearing and FireRating |
| PropertyService.Attach | ifcCreator/services/property_service.py:126-136 | a property set is always followed by the relation that attaches it to the element |
| PropertyService.PointProperties | ifcCreator/services/property_service.py:138-194 | six coordinate properties, the start's X first and the end's Z last |
| PropertyService.ColumnHeight | ifcCreator/services/property_service.py:285-290 | defined exactly when both heights are numeric; the non-negative difference of the two heights |
| PropertyService.BraceLength | ifcCreator/services/property_service.py:566-572 | defined exactly when all six coordinates are numeric; the length of the brace |
| PropertyService.CoordinateSet | ifcCreator/services/property_service.py:138-194 | no coordinate set without both end points; end points that are not points raise |
| PropertyService.Attr | ifcCreator/services/property_service.py:197-228 | `hasattr` is false on a plain value and finds a section's properties |
| PropertyService.SectionProperties | ifcCreator/services/property_service.py:196-228 | beams and columns get no dimension property exactly when width, height and thickness are all falsy; braces also list their section type and H dimensions |
| PropertyService.SectionSet | ifcCreator/services/property_service.py:196-242 | a section set exists exactly when the definition has a section giving at least one property |
| PropertyService.KindProperties | ifcCreator/services/property_service.py:99-684 | every set is paired with its relation; the Common set comes first; slabs and walls get only that; linear members fail exactly when their coordinates do |
| PropertyService.ElementProperties | ifcCreator/services/property_service.py:30-97 | nothing without a file or for an unknown type; a kind that raises part-way gives nothing; otherwise the kind's sets |
| PropertyService.CommonSetFirst | ifcCreator/services/property_service.py:59-97 | any non-empty result starts with the kind's Common set |
| PropertyService.SlabsAndWallsCommonOnly | ifcCreator/services/property_service.py:397-477 | slabs and walls get exactly their Common set and its relation |
| PropertyService.ColumnHeightProperty | ifcCreator/services/property_service.py:285-345 | a column's Height is the rise between its ends and is the same with the ends swapped |
| PropertyService.BraceLengthIsSpan | ifcCreator/services/property_service.py:521-593 | a brace's Length equals the span of its geometry |
| PropertyService.BraceSectionObjectsAlwaysSet | ifcCreator/services/property_service.py:595-682 | every section object gives a brace a section set |
| PropertyService.BeamSectionSetNeedsDimension | ifcCreator/services/property_service.py:196-242 | a beam's section set appears exactly when its section has a truthy width, height or thickness |
| PropertyService.MaterialProperties | ifcCreator/services/property_service.py:686-702 | exactly the material name, the strength class or "Default" when it is falsy, and the creator's mark |
| PropertyService.EntryProperty | ifcCreator/services/property_service.py:745-768 | None and unknown types give nothing; a length gives a property exactly when `float()` accepts the value; the property keeps the entry's name |
| PropertyService.StructuralProperties | ifcCreator/services/property_service.py:745-770 | exactly the properties the entries give, no more than there are entries |
| PropertyService.CreateStructuralProperties | ifcCreator/services/property_service.py:731-770 | nothing without a file, else the entries' properties in order |
| PropertyService.NoneSkipped | ifcCreator/services/property_service.py:748-749 | an entry whose value is None never gives a property |
| PropertyService.CreatePropertySet | ifcCreator/services/property_service.py:796-824 | nothing exactly when there is no file; else the set and the relation attaching it to the target |
| BaseCreator.Created | ifcCreator/creators/base_creator.py:42-62 | only truthy elements are kept, never more than there are definitions |
| BaseCreator.CreatedAppend | ifcCreator/creators/base_creator.py:42-62 | creating two lists one after the other gives the two results one after the other |
| BaseCreator.AllSucceedAligned | ifcCreator/creators/base_creator.py:42-62 | when every definition yields an element, the i-th element belongs to the i-th definition |
| BaseCreator.FailureShifts | ifcCreator/creators/base_creator.py:42-62 | a failing definition drops its element and shifts every later one back by one place |
| BaseCreator.ElementCreator.constructor | ifcCreator/creators/base_creator.py:20-29 | a new creator has counted nothing |
| BaseCreator.ElementCreator.CreateElements | ifcCreator/creators/base_creator.py:42-62 | the truthy results in order, and the count grows by exactly their number |
| BaseCreator.ElementCreator.ResetCount | ifcCreator/creators/base_creator.py:69-71 | the count is zero afterwards |
| ColumnCreator.SelectSections | ifcCreator/creators/column_creator.py:49-75 | no column without both end points and a section; sec_bottom and sec_top as given, or a plain section as bottom with no top |
| ColumnCreator.EffectiveTop | ifcCreator/creators/column_creator.py:130 | the top section when truthy, else the bottom one |
| ColumnCreator.TaperedIff | ifcCreator/creators/column_creator.py:130-131 | a column is tapered exactly when a truthy top section differs from the bottom one |
| ColumnCreator.PlainSectionNotTapered | ifcCreator/creators/column_creator.py:72-75 | a plain section never makes a tapered column |
| ColumnCreator.DimensionKeys | ifcCreator/creators/column_creator.py:431-473 | H families have four dimensions, BOX, BCR and L three, PIPE and P two, any other shape none |
| ColumnCreator.SectionDimensions | ifcCreator/creators/column_creator.py:431-473 | exactly the family's dimension keys, each the section's value or 0.0; nothing for a section without a shape name |
| ColumnCreator.Interpolate | ifcCreator/creators/column_creator.py:416-423 | succeeds exactly when the shared values are numbers; the keys are those both ends have; each value lies on the line from bottom to top |
| ColumnCreator.InterpolateEndpoints | ifcCreator/creators/column_creator.py:416-423 | ratio 0 gives the bottom dimensions and ratio 1 the top ones |
| ColumnCreator.InterpolatedProfile | ifcCreator/creators/column_creator.py:474-516 | a profile exists exactly when the base section's family has dimensions |
| ColumnCreator.InterpolateSectionProfiles | ifcCreator/creators/column_creator.py:401-429 | a profile exists exactly when both sections have dimensions of a family and the shared ones are numbers |
| ColumnCreator.OffsetStep | ifcCreator/creators/column_creator.py:355-379 | each segment ends where the next one starts |
| ColumnCreator.SegmentAt | ifcCreator/creators/column_creator.py:360-379 | segment i is the profile at ratio i/10 extruded from its offset by a tenth of the height, when that profile exists |
| ColumnCreator.SegmentsOf | ifcCreator/creators/column_creator.py:360-379 | the built segments, no more than asked for |
| ColumnCreator.SegmentLayout | ifcCreator/creators/column_creator.py:360-379 | either every segment is built or none is; segment k is the extrusion `SegmentAt` gives for k, a tenth of the height deep |
| ColumnCreator.SegmentsOfStep | ifcCreator/creators/column_creator.py:360-379 | one more loop pass appends the extrusion at offset i when the profile at ratio i/10 exists, nothing otherwise |
| ColumnCreator.SegmentsStack | ifcCreator/creators/column_creator.py:355-379 | ten segments that touch, the first at the bottom and the last ending at the column's top |
| ColumnCreator.UnionKeepsSolids | ifcCreator/creators/column_creator.py:381-391 | the chained boolean union keeps every segment, in order |
| ColumnCreator.Fallback | ifcCreator/creators/column_creator.py:381-395 | a shape exists exactly when the sections interpolate: one segment alone, more their union |
| ColumnCreator.UnionAll | ifcCreator/creators/column_creator.py:382-390 | the union loop gives the left fold of `UNION` over the segments |
| ColumnCreator.TaperedFallback | ifcCreator/creators/column_creator.py:355-395 | the two loops build exactly the fallback shape |
| ColumnCreator.BuildSegments | ifcCreator/creators/column_creator.py:360-381 | the segment loop gives one extruded tenth for each interpolable ratio, in order |
| ColumnCreator.UnionOfSegments | ifcCreator/creators/column_creator.py:382-395 | no segment gives nothing, one gives itself, more give their union fold |
| ColumnCreator.TaperedShape | ifcCreator/creators/column_creator.py:305-399 | corrected (as written: ColumnCreator.TaperedShapeAsWritten): no shape without both profiles; the sectioned solid, or the segment fallback when the schema refuses it |
| ColumnCreator.TaperedShapeAsWritten | ifcCreator/creators/column_creator.py:327-349 | as written, no shape without both profiles, and any shape is the sectioned solid of the two profiles |
| ColumnCreator.TaperedShapeNeverBuilt | ifcCreator/creators/column_creator.py:327-349 | as written, no tapered column shape is ever built |
| ColumnCreator.ColumnGeometry | ifcCreator/creators/column_creator.py:215-255 | corrected (the tapered branch uses ColumnCreator.TaperedShape): nothing for a height of 0 or less; equal sections extrude one profile, different ones taper; the centre is the midpoint |
| ColumnCreator.CreateColumn | ifcCreator/creators/column_creator.py:96-171 | corrected (as written: ColumnCreator.CreateColumnAsWritten): a column only with a file and a positive height; tapered exactly when a truthy top differs from the bottom; a plain column extrudes its bottom profile |
| ColumnCreator.CreateColumnAsWritten | ifcCreator/creators/column_creator.py:96-171 | as written, a column only with a file and a positive height, never tapered, extruding its bottom profile |
| ColumnCreator.AsWrittenAgreesUntapered | ifcCreator/creators/column_creator.py:96-171 | for a column with one section the as-written and corrected creation agree |
| ColumnCreator.TaperedColumnNeverCreated | ifcCreator/creators/column_creator.py:96-171 | as written, a tapered column is never created |
| ColumnCreator.TaperedColumnCreatedFixed | ifcCreator/creators/column_creator.py:96-171 | corrected, a tapered column with both profiles and a positive height is created, tapered |
| WallCreator.CenterFromCorners | ifcCreator/creators/wall_creator.py:377-386 | an empty list raises ValueError; otherwise the point that times the number of corners is their sum |
| WallCreator.CenterOfCoincidentCorners | ifcCreator/creators/wall_creator.py:377-386 | corners that all coincide have that point as centre |
| WallCreator.PadCorners | ifcCreator/creators/wall_creator.py:186-192 | fewer than three corners are refused; three are closed by repeating the first; more are kept |
| WallCreator.FaceNormal | ifcCreator/creators/wall_creator.py:460-485 | Z for fewer than three nodes or a vanishing Newell sum, otherwise the unit vector along the Newell sum |
| WallCreator.CalculateFaceNormal | ifcCreator/creators/wall_creator.py:460-485 | the edge loop computes exactly that face normal |
| WallCreator.LevelPolygonNormalIsVertical | ifcCreator/creators/wall_creator.py:466-474 | a polygon in a horizontal plane has a vertical Newell normal |
| WallCreator.YAxis | ifcCreator/creators/wall_creator.py:418-447 | Z crossed with the first edge, else with global X, else with global Y; never a (near) zero vector |
| WallCreator.FaceCoordinateSystem | ifcCreator/creators/wall_creator.py:392-458 | fewer than three nodes raise; the origin is the given centre or the centroid; global axes when no Y axis is found |
| WallCreator.FaceAxesOrthogonal | ifcCreator/creators/wall_creator.py:418-458 | when a Y axis is found the three axes are mutually orthogonal |
| WallCreator.OriginIsLocalZero | ifcCreator/creators/wall_creator.py:487-500 | the origin of a face system lies at (0, 0) in it |
| WallCreator.GlobalAxesKeepPlan | ifcCreator/creators/wall_creator.py:487-500 | under the global axes a point keeps its plan offset from the origin |
| WallCreator.Profile | ifcCreator/creators/wall_creator.py:201-213 | one profile point per node, each the node in local 2D coordinates |
| WallCreator.OpeningFrom | ifcCreator/creators/wall_creator.py:534-616 | the opening's centre is its lower-left offset from the wall centre plus half its size; it cuts 1 beyond each face |
| WallCreator.FullOpeningIsCentred | ifcCreator/creators/wall_creator.py:557-564 | an opening the size of the wall at its lower-left corner is centred on the wall |
| WallCreator.OpeningOutcomeOf | ifcCreator/creators/wall_creator.py:522-665 | an entry that is not a dict aborts the loop; a dict is built exactly when its figures can be read |
| WallCreator.OpeningsOf | ifcCreator/creators/wall_creator.py:522-665 | the loop completes exactly when every entry is a dict, and builds at most one opening per entry |
| WallCreator.CreateWallOpenings | ifcCreator/creators/wall_creator.py:502-668 | the loop gives exactly the openings of the list |
| WallCreator.ErrorSticks | ifcCreator/creators/wall_creator.py:522-668 | once a prefix aborts, the whole list aborts the same way |
| WallCreator.OpeningsValue | ifcCreator/creators/wall_creator.py:158-161 | no openings for a falsy value; a list is looped over |
| WallCreator.WallGeometry | ifcCreator/creators/wall_creator.py:171-255 | at least three corners; four profile points, the corners in the face's local system, a three-corner wall closed by its first; origin at the centre |
| WallCreator.OnlyFourCornersCount | ifcCreator/creators/wall_creator.py:201-213 | only the first four corners shape a wall whose centre is given |
| WallCreator.CreateWall | ifcCreator/creators/wall_creator.py:99-169 | a wall only with a file and at least three corners; the given centre or the corners' mean; its openings are those of the definition |
| WallCreator.SectionProperties | ifcCreator/creators/wall_creator.py:44-54 | every key of the section dict except stb_name and section_type |
| WallCreator.CornerPoints | ifcCreator/creators/wall_creator.py:62-66 | one corner point per checked corner node |
| WallCreator.CreateElement | ifcCreator/creators/wall_creator.py:26-91 | a wall only for a definition that passes the wall check with at least three corners; named by its name or "Wall" |
| WallCreator.TwoCornerWallNotBuilt | ifcCreator/creators/wall_creator.py:186-188 | a two-corner wall passes the wall check yet is never built |
| TypeCreator.BeamTypeName | ifcCreator/creators/type_creator.py:132-139 | steel exactly when the name holds H or I, concrete exactly when it holds RECT but neither, else standard |
| TypeCreator.ColumnTypeName | ifcCreator/creators/type_creator.py:141-150 | steel for H or I, concrete-filled tube for BOX, concrete for RECT, each exactly when no earlier rule applies |
| TypeCreator.Creator.constructor | ifcCreator/creators/type_creator.py:9-17 | an empty type cache and nothing added to the file |
| TypeCreator.Creator.CreateType | ifcCreator/creators/type_creator.py:19-110 | a cached name returns its type and adds nothing; otherwise exactly one new type is added and cached under the name |
| TypeCreator.Creator.GetBeamTypeForProfile | ifcCreator/creators/type_creator.py:132-139 | the beam type the profile name selects, cached or new |
| TypeCreator.Creator.GetColumnTypeForProfile | ifcCreator/creators/type_creator.py:141-150 | the column type the profile name selects, cached or new |
| TypeCreator.Creator.RelateElementToType | ifcCreator/creators/type_creator.py:111-130 | one new relation of the elements, a single one wrapped in a list, to the type |
| TypeCreator.RepeatedProfileReusesType | ifcCreator/creators/type_creator.py:132-139 | asking twice for one profile gives the same type and adds nothing the second time |
| TypeCreator.CacheIgnoresKind | ifcCreator/creators/type_creator.py:19-64 | a column type asked for under a beam type's name is that beam type |
| TypeCreator.RuleNamesDisjoint | ifcCreator/creators/type_creator.py:132-150 | the beam and column rules never choose the same name |
| MaterialCreator.ProfileMaterialKind | ifcCreator/creators/material_creator.py:100-110 | concrete exactly when the upper-cased name holds RECT and no steel keyword |
| MaterialCreator.ElementMaterialKind | ifcCreator/creators/material_creator.py:111-126 | concrete for slabs and footings, the profile's material for a non-empty profile name, steel otherwise |
| MaterialCreator.Creator.constructor | ifcCreator/creators/material_creator.py:9-17 | an empty material cache and nothing added to the file |
| MaterialCreator.Creator.CreateMaterial | ifcCreator/creators/material_creator.py:19-38 | a cached name returns its material and adds nothing; otherwise one new material is added and cached |
| MaterialCreator.Creator.CreateKindMaterial | ifcCreator/creators/material_creator.py:39-46 | the steel or concrete material under its name, cached or new |
| MaterialCreator.Creator.GetMaterialForProfile | ifcCreator/creators/material_creator.py:100-110 | the material the profile name selects |
| MaterialCreator.Creator.CreateMaterialForElementType | ifcCreator/creators/material_creator.py:111-126 | the material the element type and profile name select |
| MaterialCreator.Creator.CreateMaterialProfile | ifcCreator/creators/material_creator.py:47-61 | one new material profile, never cached |
| MaterialCreator.Creator.CreateMaterialProfileSet | ifcCreator/creators/material_creator.py:62-78 | one new set of the profiles, a single profile wrapped in a list |
| MaterialCreator.Creator.AssociateMaterialToElements | ifcCreator/creators/material_creator.py:79-99 | one new association of the elements, a single one wrapped in a list |
| MaterialCreator.CachedMaterialKeepsDescription | ifcCreator/creators/material_creator.py:19-38 | a material asked for again keeps its first description |
| MaterialCreator.HollowHoldsH | ifcCreator/creators/material_creator.py:100-110 | every name holding HOLLOW holds H, so that keyword adds nothing |
| MaterialCreator.SteelBeamTypeHasSteel | ifcCreator/creators/material_creator.py:100-110 | a profile that makes a steel beam type gets steel |
| MaterialCreator.SteelColumnTypeHasSteel | ifcCreator/creators/material_creator.py:100-110 | a profile that makes a steel or filled-tube column type gets steel |
| MaterialCreator.ConcreteColumnTypeIffConcrete | ifcCreator/creators/material_creator.py:100-110 | for an upper-case name, the concrete column type and concrete material go together |
| MaterialCreator.SlabsAreConcrete | ifcCreator/creators/material_creator.py:111-126 | slabs are concrete whatever their profile; beams with a profile name are steel |
| GridCreator.ValidAxes | ifcCreator/specialized/grid_creator.py:303-306 | exactly the group's well-formed axes, in order |
| GridCreator.ProcessSingleGroup | ifcCreator/specialized/grid_creator.py:293-318 | nothing exactly when no axis is well formed; otherwise the group with only those axes, origin and angle defaulting to 0 |
| GridCreator.ProcessedGroups | ifcCreator/specialized/grid_creator.py:277-292 | the processed groups in order, the ones without a valid axis dropped |
| GridCreator.ProcessedGroupsValid | ifcCreator/specialized/grid_creator.py:277-318 | every processed group holds at least one axis and only valid ones |
| GridCreator.Process | ifcCreator/specialized/grid_creator.py:277-292 | the loop gives exactly the processed groups |
| GridCreator.CreateGridAxis | ifcCreator/specialized/grid_creator.py:148-207 | an axis exists exactly when both points are readable and differ; it is tagged with its name |
| GridCreator.AngleMod | ifcCreator/specialized/grid_creator.py:125 | Python's float `% 180`: in [0, 180) and differing from the angle by a multiple of 180 |
| GridCreator.AngleDirectionPeriodic | ifcCreator/specialized/grid_creator.py:125-128 | turning the angle by 180 degrees keeps the direction |
| GridCreator.GroupDirection | ifcCreator/specialized/grid_creator.py:111-128 | a name with X is U, else one with Y is V, else the angle (a number or a boolean) decides; a name that is not text raises |
| GridCreator.Coord | ifcCreator/specialized/grid_creator.py:165-182 | a coordinate is present exactly when the point has that key holding a number or a boolean, read as 1 or 0 for a boolean |
| GridCreator.Step | ifcCreator/specialized/grid_creator.py:97-128 | one axis adds at most one axis; a failure stays a failure |
| GridCreator.Collect | ifcCreator/specialized/grid_creator.py:92-128 | every collected axis has a non-zero direction |
| GridCreator.CollectErrSticks | ifcCreator/specialized/grid_creator.py:141-146 | an exception ends the loop for good |
| GridCreator.AllXGroupsAreU | ifcCreator/specialized/grid_creator.py:111-116 | when every group is named with X and every axis is well placed, all axes are U axes |
| GridCreator.GridOf | ifcCreator/specialized/grid_creator.py:51-146 | no grid without groups, without a file or without any axis; every axis is non-degenerate |
| GridCreator.CollectGroup | ifcCreator/specialized/grid_creator.py:97-128 | the inner loop adds exactly that group's axes |
| GridCreator.CreateGridFromAxesGroups | ifcCreator/specialized/grid_creator.py:51-146 | the loops give exactly that grid |
| ElementCreationFactory.DefaultFloor | ifcCreator/core/element_creation_factory.py:84-380 | RFL for beams and slabs, 1FL for columns, walls and braces, GL for piles, footings and foundation columns |
| ElementCreationFactory.ResolveFloor | ifcCreator/core/element_creation_factory.py:63-82 | a truthy floor is kept, anything else becomes the default |
| ElementCreationFactory.TrackAsWritten | ifcCreator/core/element_creation_factory.py:90-93 | as written, the i-th created element is paired with the i-th definition, never more entries than results |
| ElementCreationFactory.TrackingMisaligned | ifcCreator/core/element_creation_factory.py:90-95 | when the first beam fails, the second beam is tracked with the first beam's definition |
| ElementCreationFactory.Track | ifcCreator/core/element_creation_factory.py:84-108 | corrected, one tracked entry per created element |
| ElementCreationFactory.TrackRecordsSource | ifcCreator/core/element_creation_factory.py:90-105 | every tracked entry records its element, the definition it came from and that definition's floor |
| ElementCreationFactory.TrackFollowsCreated | ifcCreator/core/element_creation_factory.py:90-105 | the tracked elements are exactly the created ones, in order |
| ElementCreationFactory.AsWrittenAgreesWithoutFailures | ifcCreator/core/element_creation_factory.py:90-93 | when no definition fails, the pairing as written is right |
| ElementCreationFactory.TrackPrefixIndependent | ifcCreator/core/element_creation_factory.py:90-93 | the pairing of the first results looks only at the first definitions |
| ElementCreationFactory.TrackedIds | ifcCreator/core/element_creation_factory.py:272-275 | exactly the ids of the tracked definitions (None for one without an id) |
| ElementCreationFactory.FilterUncreated | ifcCreator/core/element_creation_factory.py:270-280 | exactly the definitions whose id is not tracked, in order |
| ElementCreationFactory.IdlessDroppedOnceIdlessTracked | ifcCreator/core/element_creation_factory.py:270-280 | once an entry without an id is tracked, every definition without an id is dropped |
| ElementCreationFactory.CreatorFor | ifcCreator/core/element_creation_factory.py:238-240 | the kept creators by lowered name; piles, footings and foundation columns have none |
| ElementCreationFactory.ZeroStats | ifcCreator/core/element_creation_factory.py:50-59 | every usage counter at zero |
| ElementCreationFactory.Factory.constructor | ifcCreator/core/element_creation_factory.py:29-61 | nothing tracked and every counter at zero |
| ElementCreationFactory.Factory.CreateElementsOf | ifcCreator/core/element_creation_factory.py:84-409 | corrected (as written: ElementCreationFactory.TrackAsWritten): a creator failure returns nothing and changes nothing; otherwise the truthy elements, each tracked with its own definition, and the kind's usage and creator counters grow by their number |
| ElementCreationFactory.Factory.AddCreatedElement | ifcCreator/core/element_creation_factory.py:249-251 | the entry is appended and nothing else changes |
| ElementCreationFactory.Factory.IsElementCreatedByName | ifcCreator/core/element_creation_factory.py:282-291 | true exactly when a tracked definition has the name (and the kind, when one is given) |
| ElementCreationFactory.Factory.ResetStats | ifcCreator/core/element_creation_factory.py:261-268 | nothing tracked and every counter zero, with the same counter keys |
| ElementCreationFactory.TrackedBeamFound | ifcCreator/core/element_creation_factory.py:242-247 | after beams are created, each tracked beam's id is found |
| StoryConverter.PutStorey | ifcCreator/core/story_converter.py:85-86 | the name is recorded and no other storey is added or lost |
| StoryConverter.StoreyOf | ifcCreator/core/story_converter.py:217-218 | None for a name without a storey |
| StoryConverter.StoreyParameters | ifcCreator/core/story_converter.py:67-91 | the name (default "Storey") and the height in metres, one thousandth of the height given |
| StoryConverter.FloorNode | ifcCreator/core/story_converter.py:131-138 | the first truthy of bottom_node_id, start_node_id, node_id and primary_node_id |
| StoryConverter.AssignedFloor | ifcCreator/core/story_converter.py:140-144 | the node's story when the map has one, else the current story |
| StoryConverter.AssignFloors | ifcCreator/core/story_converter.py:125-144 | every definition of every type gets a floor; nothing else is added or removed |
| StoryConverter.OwnFloorOverwritten | ifcCreator/core/story_converter.py:140-144 | a floor the element already had is overwritten with the current story |
| StoryConverter.MapGet | ifcCreator/core/story_converter.py:422-486 | only a text id can find a story in the node map |
| StoryConverter.FirstOf | ifcCreator/core/story_converter.py:422-486 | the first node id of a non-empty list |
| StoryConverter.PointZ | ifcCreator/core/story_converter.py:508-543 | the z of a point dict; a missing point raises |
| StoryConverter.ElementZ | ifcCreator/core/story_converter.py:508-543 | the midpoint height of start/end or bottom/top, else the point, top or bottom; None without any |
| StoryConverter.BelongsByCoordinates | ifcCreator/core/story_converter.py:488-506 | false without a height; otherwise base <= z < base + floor height, with defaults 0 and 3000 |
| StoryConverter.ShouldInclude | ifcCreator/core/story_converter.py:266-370 | a type that is not text raises first; otherwise an equal floor keeps, a different floor drops, and without a floor the node rule, then the height rule, then walls and slabs are kept |
| StoryConverter.TypeOf | ifcCreator/core/story_converter.py:281 | a missing type reads as empty text, a text type is lower-cased, any other type (None included) raises |
| StoryConverter.FilterByStory | ifcCreator/core/story_converter.py:256-370 | only elements the rules keep, in order |
| StoryConverter.FilterUncreatedDefs | ifcCreator/core/story_converter.py:573-599 | each type keeps the definitions whose id is not tracked |
| StoryConverter.UniqueByName | ifcCreator/core/story_converter.py:601-646 | exactly the definitions without a name or whose name is not tracked |
| StoryConverter.DeduplicateByName | ifcCreator/core/story_converter.py:601-646 | each type filtered by tracked name |
| StoryConverter.SameNameInOneBatchKept | ifcCreator/core/story_converter.py:601-646 | two new elements sharing a name are both kept |
| StoryConverter.EmptyGroups | ifcCreator/core/story_converter.py:179 | one empty group per created storey, in order |
| StoryConverter.AddTo | ifcCreator/core/story_converter.py:189-210 | appending keeps the groups and their names |
| StoryConverter.Target | ifcCreator/core/story_converter.py:182-210 | nowhere without element or floor; the floor's storey when created, else GL |
| StoryConverter.Group | ifcCreator/core/story_converter.py:182-210 | the grouping keeps the storey names |
| StoryConverter.GroupCollectsBound | ifcCreator/core/story_converter.py:182-210 | each storey receives exactly the tracked elements bound for it, in tracking order |
| StoryConverter.Relations | ifcCreator/core/story_converter.py:213-233 | one relation per non-empty group whose storey is truthy |
| StoryConverter.WithGL | ifcCreator/core/story_converter.py:93-105 | GL is present afterwards, and nothing changes when it already was |
| StoryConverter.ElementGoesToItsStoreyOrGL | ifcCreator/core/story_converter.py:182-210 | an element goes to its floor's storey when it exists, else to GL |
| StoryConverter.GetElementDefinitions | ifcCreator/core/story_converter.py:372-419 | set non-empty definitions are returned as they are; otherwise the XML content goes to the STB parser and a parse failure gives no definitions |
| StoryConverter.NoXmlStillParsed | ifcCreator/core/story_converter.py:378-383 | without definitions and without XML content the parser is still asked; the no-XML warning after the first return is unreachable |
| StoryConverter.Converter.constructor | ifcCreator/core/story_converter.py:26-49 | no storeys, no node map, no definitions |
| StoryConverter.Converter.SetElementDefinitions | ifcCreator/core/story_converter.py:51-57 | the definitions are set and nothing else changes |
| StoryConverter.Converter.SetNodeStoryMap | ifcCreator/core/story_converter.py:59-65 | the map is set and nothing else changes |
| StoryConverter.Converter.ConvertStbStoryToIfcStory | ifcCreator/core/story_converter.py:67-91 | the storey is added and recorded under the story's name; an unreadable height changes nothing |
| StoryConverter.Converter.EnsureGlStoreyExists | ifcCreator/core/story_converter.py:93-105 | a GL storey at elevation 0 exists afterwards |
| StoryConverter.Converter.FilterElementsByStory | ifcCreator/core/story_converter.py:256-370 | the loop gives exactly the filtered elements |
| StoryConverter.Converter.AssociateElementsToStoreys | ifcCreator/core/story_converter.py:162-254 | nothing without tracked elements; else GL is ensured and each element is related to its storey |
| StoryConverter.Converter.ConvertElementsForStory | ifcCreator/core/story_converter.py:107-160 | the current story is set; without definitions nothing changes; otherwise the floors are assigned, elements created before are dropped by id and by name, and the factory ends in the state of creating the rest kind by kind; stored definitions receive the floors, parsed ones are not kept |
| StoryConverter.Converter.CreateElements | ifcCreator/core/story_converter.py:648-715 | the factory's tracked list, counters and the returned total are those of creating each non-empty kind in the fixed order |
| StoryConverter.CreateKind | ifcCreator/core/story_converter.py:656-658 | an empty list or a failing creator changes nothing; otherwise the elements are tracked and counted and the total grows by their number |
| StoryConverter.CreateFoldCountsTracked | ifcCreator/core/story_converter.py:648-715 | the tracked list only grows, and by exactly the returned total |
| StoryConverter.CreateFoldNoDefs | ifcCreator/core/story_converter.py:648-715 | when every kind's list is empty nothing is created and nothing changes |
| StoryConverter.FilterErrorSticks | ifcCreator/core/story_converter.py:256-370 | the first element that raises makes the whole filter raise |
| ElementParsingService.ValidCategories | core/element_parsing_service.py:66-89 | exactly the lowered names that are element types, in order, no more than given |
| ElementParsingService.SelectCategories | core/element_parsing_service.py:66-89 | no list, an empty one or one without a valid name selects everything; otherwise the valid lowered names |
| ElementParsingService.ShouldParse | core/element_parsing_service.py:91-95 | everything without a selection; else exactly the selected names, compared lowered |
| ElementParsingService.MemberDefs | core/element_parsing_service.py:97-165 | a selected category's parsed list, else an empty list |
| ElementParsingService.MemberDefsMap | core/element_parsing_service.py:97-165 | one list per member category under its `_defs` key and no other key |
| ElementParsingService.AllElements | core/element_parsing_service.py:97-165 | every member list as selected; stories and axes always parsed |
| ElementParsingService.MembersAreNotStoriesOrAxes | core/element_parsing_service.py:97-165 | no member list's key clashes with the stories' or the axes' key |
| ElementParsingService.Service.constructor | core/element_parsing_service.py:13-16 | nothing selected and an empty document cache |
| ElementParsingService.Service.SetSelectedCategories | core/element_parsing_service.py:66-89 | the loop stores exactly the selection |
| ElementParsingService.Service.ShouldParseCategory | core/element_parsing_service.py:91-95 | the category check on the current selection |
| ElementParsingService.Service.ParseAllElements | core/element_parsing_service.py:97-165 | the cache is warmed, then every list is parsed as selected |
| ElementParsingService.SelectionFilters | core/element_parsing_service.py:66-165 | a category named in the selection is parsed; one not named gives an empty list |
| ElementParsingService.StoriesOnlySelection | core/element_parsing_service.py:66-165 | selecting STORY alone leaves every member list empty, while stories are parsed |
| ElementParsingService.UnknownSelectionParsesAll | core/element_parsing_service.py:82-89 | a selection with only unknown names parses every category |
| ElementParsingService.NoValidCategories | core/element_parsing_service.py:66-89 | a list without a valid name has no valid categories |
| ElementCounter.Get | core/element_counter.py:79-80 | a missing type counts 0 |
| ElementCounter.Compare | core/element_counter.py:86-93 | the rate is the IFC count in percent of the STB count; OK exactly when IFC reaches STB, FAILED exactly when IFC is 0, else PARTIAL |
| ElementCounter.RateCompare | core/element_counter.py:87-92 | a rate reaches 100 exactly when IFC reaches STB, and is positive exactly when IFC is |
| ElementCounter.Entries | core/element_counter.py:78-93 | only primary types with an STB count, each with its comparison |
| ElementCounter.EntriesComplete | core/element_counter.py:78-93 | every primary type with an STB count has its entry |
| ElementCounter.ComparisonOf | core/element_counter.py:58-120 | the primary entries, then src when present; the total of all IFC counts; an overall rate of 0 without STB elements |
| ElementCounter.CompareConversion | core/element_counter.py:58-120 | the loop gives exactly that comparison |
| ElementCounter.SumCounts | core/element_counter.py:107 | the sum of all counts |
| ElementCounter.PrimaryWithinAll | core/element_counter.py:78-110 | the primary IFC total never exceeds the count of all IFC elements |
| ElementCounter.TotalSplit | core/element_counter.py:78-84 | dropping the last count lowers the total by at most that count |
| ElementCounter.TotalWithout | core/element_counter.py:78-84 | a count under a key outside the mapping adds nothing to the total |
| ElementStoryAnalyzer.FloorStage | core/element_story_analyzer.py:223-237 | a result exactly when the floor is truthy: that floor, confidence 1.0 |
| ElementStoryAnalyzer.NodesFor | core/element_story_analyzer.py:291-322 | a missing key gives no node; a first-of-list key gives one exactly for a non-empty list |
| ElementStoryAnalyzer.TruthyOnly | core/element_story_analyzer.py:318-320 | only the truthy values, in order; all of them when all are truthy |
| ElementStoryAnalyzer.RepresentativeNodes | core/element_story_analyzer.py:291-322 | an unknown element type has no nodes; every node is truthy |
| ElementStoryAnalyzer.FindStory | core/element_story_analyzer.py:239-263 | the story of the first node in the map; hashable ids never raise |
| ElementStoryAnalyzer.NodeStage | core/element_story_analyzer.py:239-263 | no nodes gives no result; a result has confidence 0.8 |
| ElementStoryAnalyzer.ZFrom | core/element_story_analyzer.py:324-350 | the first key holding a usable point (a dictionary with z, else Z, or a list of three or more) gives the height, and a height that is not a number raises; no such key gives no height |
| ElementStoryAnalyzer.FirstContaining | core/element_story_analyzer.py:265-289 | the first story whose closed range holds the height, or none |
| ElementStoryAnalyzer.CoordinateStage | core/element_story_analyzer.py:265-289 | no result without elevations; a result has confidence 0.6 |
| ElementStoryAnalyzer.Analyze | core/element_story_analyzer.py:84-156 | the first stage that succeeds decides; an exception or the failure of all three is a ConversionError |
| ElementStoryAnalyzer.FloorFirst | core/element_story_analyzer.py:117-124 | the floor attribute wins over nodes and coordinates |
| ElementStoryAnalyzer.BeamStartNodeSecond | core/element_story_analyzer.py:126-133 | without a floor a beam takes its start node's story at 0.8 |
| ElementStoryAnalyzer.UnknownTypeUsesCoordinates | core/element_story_analyzer.py:291-322 | an unknown element type can only be placed by coordinates |
| ElementStoryAnalyzer.NoElevationsFails | core/element_story_analyzer.py:142-147 | without elevations and without a node match the analysis fails |
| ElementStoryAnalyzer.BoundaryGoesToFirstStory | core/element_story_analyzer.py:265-289 | a height on a shared boundary belongs to the story listed first |
| ElementStoryAnalyzer.WallEmptyNodeList | core/element_story_analyzer.py:291-322 | a wall with an empty node list uses its primary node alone |
| ElementStoryAnalyzer.Annotate | core/element_story_analyzer.py:199-203 | the assigned story, confidence and method are written and every other key is kept |
| ElementStoryAnalyzer.AddElement | core/element_story_analyzer.py:191-219 | an analysed element is appended to its story and type only; a failed one changes nothing |
| ElementStoryAnalyzer.GroupedAreAnnotated | core/element_story_analyzer.py:184-221 | every grouped element carries the story it is grouped under |
| ElementStoryAnalyzer.FailedElementSkipped | core/element_story_analyzer.py:205-219 | an element whose stages all fail leaves the groups unchanged |
| ElementStoryAnalyzer.Analyzer.constructor | core/element_story_analyzer.py:33-72 | the node map given and no elevations |
| ElementStoryAnalyzer.Analyzer.SetStoryElevations | core/element_story_analyzer.py:74-82 | the elevations are set and the node map kept |
| ElementStoryAnalyzer.Analyzer.AnalyzeElement | core/element_story_analyzer.py:84-156 | the analysis on the analyser's current state |
| ElementStoryAnalyzer.Analyzer.AnalyzeType | core/element_story_analyzer.py:191-219 | the loop adds exactly that type's analysed elements |
| ElementStoryAnalyzer.Analyzer.BatchAnalyze | core/element_story_analyzer.py:158-221 | every element of every type analysed in order, failures skipped; all grouped elements annotated |
| DefaultStoryService.StrLessTrichotomy | core/default_story_service.py:55 | string order is a strict total order |
| DefaultStoryService.Insert | core/default_story_service.py:55 | insertion keeps a list sorted and adds exactly the one id |
| DefaultStoryService.SortedUnique | core/default_story_service.py:55 | two sorted lists of the same distinct ids are equal, so `sorted` of a set has one answer |
| DefaultStoryService.RawNodeIds | core/default_story_service.py:89-129 | the ids of the first shape the element has: start/end, bottom/top, node_id, node_ids, primary node |
| DefaultStoryService.NodeIdsOf | core/default_story_service.py:89-129 | every text id is kept; every id comes from the element and is not None |
| DefaultStoryService.AllNodeIds | core/default_story_service.py:66-87 | every element's ids are collected |
| DefaultStoryService.IdsComeFromElements | core/default_story_service.py:66-87 | every collected id comes from some element |
| DefaultStoryService.CollectAllNodeIds | core/default_story_service.py:66-87 | the loops collect exactly those ids |
| DefaultStoryService.SortIds | core/default_story_service.py:55 | a sorted list of exactly the set's ids |
| DefaultStoryService.CreateDefaultStory | core/default_story_service.py:19-64 | one story GL, height 3000, elevation 0, type DEFAULT, holding every node id sorted and once |
| DefaultStoryService.ValidStories | core/default_story_service.py:131-159 | exactly the stories with a name and node ids |
| DefaultStoryService.ShouldUseDefaultStory | core/default_story_service.py:131-159 | true exactly when no story is usable |
| DefaultStoryService.NamedStoryWithoutNodesUsesDefault | core/default_story_service.py:131-159 | a named story without node ids still calls for the default |
| StoryElementRelationships.Names | core/story_element_relationship_manager.py:334-336 | the story names, in map order |
| StoryElementRelationships.ElementsOf | core/story_element_relationship_manager.py:244-254 | an unknown story has no elements |
| StoryElementRelationships.AppendTo | core/story_element_relationship_manager.py:80-86 | the story is present afterwards, added at the end only when new |
| StoryElementRelationships.AppendAddsId | core/story_element_relationship_manager.py:80-86 | registering one element adds exactly its id to the registered ids |
| StoryElementRelationships.Firsts | core/story_element_relationship_manager.py:196-206 | each id once, and only ids that occur |
| StoryElementRelationships.Repeated | core/story_element_relationship_manager.py:196-206 | only ids occurring more than once |
| StoryElementRelationships.NoDuplicatesIff | core/story_element_relationship_manager.py:196-206 | no id is reported duplicated exactly when no id occurs twice |
| StoryElementRelationships.Missing | core/story_element_relationship_manager.py:181-190 | exactly the stories never created, in map order |
| StoryElementRelationships.Numeric | core/story_element_relationship_manager.py:208-215 | a number is itself, a bool 0 or 1; anything else cannot be compared |
| StoryElementRelationships.LowConfidence | core/story_element_relationship_manager.py:208-215 | the count of confidences below 0.7; raises exactly when a confidence is not a number |
| StoryElementRelationships.Validate | core/story_element_relationship_manager.py:175-242 | valid exactly when nothing is orphaned, duplicated or missing; a warning exactly when no element is registered |
| StoryElementRelationships.TypeCountsCount | core/story_element_relationship_manager.py:268-272 | each present type counted once per element, absent types without entry |
| StoryElementRelationships.ConfidenceSum | core/story_element_relationship_manager.py:274-276 | defined exactly when every confidence is a number |
| StoryElementRelationships.StatsOf | core/story_element_relationship_manager.py:262-286 | the story's name, its element count, its type counts and its mean confidence |
| StoryElementRelationships.StoryStatistics | core/story_element_relationship_manager.py:256-288 | one entry per story with elements, none for an empty map |
| StoryElementRelationships.RegisterKeepsConsistent | core/story_element_relationship_manager.py:65-89 | registering a new id keeps every id registered once |
| StoryElementRelationships.AllCreatedNothingMissing | core/story_element_relationship_manager.py:181-194 | when every story is created nothing is missing or orphaned |
| StoryElementRelationships.Relations | core/story_element_relationship_manager.py:91-138 | at most one truthy relation per story |
| StoryElementRelationships.IfcElements | core/story_element_relationship_manager.py:107-111 | only the non-null IFC elements |
| StoryElementRelationships.RelationOf | core/story_element_relationship_manager.py:98-130 | no relation for an empty list or an unknown storey; otherwise the storey related to its IFC elements |
| StoryElementRelationships.Manager.constructor | core/story_element_relationship_manager.py:44-63 | nothing registered, created or related |
| StoryElementRelationships.Manager.RegisterElementToStory | core/story_element_relationship_manager.py:65-89 | an id seen before is ignored; a new one is appended to its story |
| StoryElementRelationships.Manager.CreateSpatialRelationships | core/story_element_relationship_manager.py:91-138 | one relation per story that yields one, in map order, and nothing else changes |
| StoryElementRelationships.Manager.AssociateElementsToStoreys | core/story_element_relationship_manager.py:140-173 | the created story names are recorded |
| StoryElementRelationships.Manager.GetTotalRegisteredElements | core/story_element_relationship_manager.py:330-332 | the sum of the story list lengths, which is the number of registered ids |
| StoryElementRelationships.Manager.ClearAllRelationships | core/story_element_relationship_manager.py:338-344 | everything is empty afterwards |
| StoryElementRelationships.ValidHasNoDuplicates | core/story_element_relationship_manager.py:196-206 | a manager that registers ids once never reports a duplicate |
| StoryElementRelationships.AllStoriesCreatedIsValid | core/story_element_relationship_manager.py:175-242 | once every story is created, a consistent manager validates |
| StoryElementRelationships.UncreatedStoryOrphans | core/story_element_relationship_manager.py:181-194 | a story never created is missing and its elements are orphans |
| ElementCentricConverter.FirstTruthyName | core/element_centric_converter.py:343-349 | the first truthy of the keys, as text; none exactly when none is truthy |
| ElementCentricConverter.EmptyNameFallsThrough | core/element_centric_converter.py:343-349 | a falsy name gives way to the section name |
| ElementCentricConverter.HashComponents | core/element_centric_converter.py:351-371 | the text of the keys present, in key order |
| ElementCentricConverter.HashOfTwoPoints | core/element_centric_converter.py:351-371 | a member with only its two end points hashes "start|end" |
| ElementCentricConverter.Record | core/element_centric_converter.py:270-286 | a kept element records its truthy id, its non-empty name and its hash; the registries only grow |
| ElementCentricConverter.DedupPrefix | core/element_centric_converter.py:223-288 | no more kept than seen, and the registries only grow |
| ElementCentricConverter.DedupMarksAll | core/element_centric_converter.py:223-288 | after a pass every element of it is a duplicate |
| ElementCentricConverter.AllDuplicatesKeepNothing | core/element_centric_converter.py:223-288 | a pass over known elements keeps nothing and changes nothing |
| ElementCentricConverter.SecondPassKeepsNothing | core/element_centric_converter.py:223-288 | the same list a second time keeps nothing |
| ElementCentricConverter.IdlessSamePositionCollides | core/element_centric_converter.py:236-240 | an id-less element at a position an earlier batch used is dropped as a duplicate |
| ElementCentricConverter.Bump | core/element_centric_converter.py:320-326 | the key grows by n from 0 and nothing else changes |
| ElementCentricConverter.CreateOne | core/element_centric_converter.py:290-332 | an exception counts one failure; a falsy result is skipped; a truthy one is appended |
| ElementCentricConverter.CreatePrefix | core/element_centric_converter.py:290-332 | registries and duplicate count unchanged; at most one element per definition |
| ElementCentricConverter.FailedCountsExceptions | core/element_centric_converter.py:327-330 | the failure count grows by exactly the number of exceptions |
| ElementCentricConverter.CreatedBelongToBatch | core/element_centric_converter.py:306-318 | every created element carries the batch's type and story and a truthy IFC element |
| ElementCentricConverter.ProcessGroup | core/element_centric_converter.py:190-215 | an empty group changes nothing; otherwise the duplicates count the dropped elements and the type is counted |
| ElementCentricConverter.Triples | core/element_centric_converter.py:185-190 | one group per type of the story, in order |
| ElementCentricConverter.DuplicatesBounded | core/element_centric_converter.py:167-221 | duplicates never decrease and grow by at most the number of definitions |
| ElementCentricConverter.Put | core/element_centric_converter.py:373-387 | the story's range is present and at most one entry is added |
| ElementCentricConverter.StoryRange | core/element_centric_converter.py:377-386 | from the elevation to elevation plus height, the height defaulting to 3000 |
| ElementCentricConverter.PrepareStoryElevations | core/element_centric_converter.py:373-387 | no stories give no ranges |
| ElementCentricConverter.DefaultHeightRange | core/element_centric_converter.py:377-386 | a story at 3000 without a height spans 3000 to 6000 |
| ElementCentricConverter.SetOfSize | core/element_centric_converter.py:429-442 | a set of the ids is as large as the list exactly when the ids are distinct |
| ElementCentricConverter.IntegrityIff | core/element_centric_converter.py:429-442 | integrity holds exactly when every id and element is truthy and no two ids are equal |
| ElementCentricConverter.Converter.constructor | core/element_centric_converter.py:67-94 | empty registries and zero statistics |
| ElementCentricConverter.Converter.EnsureNoDuplicates | core/element_centric_converter.py:223-288 | the loop keeps and records exactly what the dedup pass does |
| ElementCentricConverter.Converter.CreateElementsBatch | core/element_centric_converter.py:290-332 | the loop creates and counts exactly what the batch function does |
| ElementCentricConverter.Converter.ProcessOneGroup | core/element_centric_converter.py:185-215 | one group processed as the group function says |
| ElementCentricConverter.Converter.CreateElementsWithStoryInfo | core/element_centric_converter.py:167-221 | the total is set first and every group is processed in order |
| IntegrationService.QualityIff | core/element_centric_integration_service.py:394-414 | the quality check compares the coordinate count with the allowed share of the created count |
| IntegrationService.LegacyPassesQuality | core/element_centric_integration_service.py:394-414 | the legacy result always passes the quality check |
| IntegrationService.ChooseMode | core/element_centric_integration_service.py:301-339 | element-centric above 1000 elements or 10 stories, legacy below 100 elements and 3 stories, hybrid otherwise |
| IntegrationService.ChooseModeIsConcrete | core/element_centric_integration_service.py:301-339 | automatic mode never chooses itself |
| IntegrationService.Hybrid | core/element_centric_integration_service.py:225-299 | a good element-centric result is kept; anything else falls back to legacy and counts a fallback |
| IntegrationService.Body | core/element_centric_integration_service.py:85-154 | only automatic mode writes history entries of its own |
| IntegrationService.Run | core/element_centric_integration_service.py:85-154 | the mode is written to the history last; a legacy run is the legacy result without fallback |
| IntegrationService.FallbackAlwaysSucceeds | core/element_centric_integration_service.py:85-154 | with fallback enabled and a working legacy conversion every run gives a result |
| IntegrationService.GoodHybridKeepsResult | core/element_centric_integration_service.py:225-299 | a good hybrid result is used without fallback |
| IntegrationService.AutoWritesTwoEntries | core/element_centric_integration_service.py:301-339 | an automatic run writes the chosen mode, then "auto" |
| IntegrationService.Entries | core/element_centric_integration_service.py:140-150 | one history entry per mode |
| IntegrationService.ModeUsageTotal | core/element_centric_integration_service.py:452-460 | the mode usage accounts for every entry |
| IntegrationService.Recommend | core/element_centric_integration_service.py:374-385 | element-centric above 30 % with no duplicates, hybrid above 10 %, legacy otherwise |
| IntegrationService.Service.constructor | core/element_centric_integration_service.py:69-83 | the mode and settings given, empty history and no fallbacks |
| IntegrationService.Service.ConvertWithIntegration | core/element_centric_integration_service.py:85-154 | the result, fallbacks and history entries of the run; the configured mode is unchanged |
| IntegrationService.Service.ExecuteMode | core/element_centric_integration_service.py:100-125 | the dispatch gives what the mode's body says |
| IntegrationService.Service.ExecuteHybrid | core/element_centric_integration_service.py:225-299 | the hybrid result and its fallbacks |
| IntegrationService.Service.ExecuteAuto | core/element_centric_integration_service.py:301-339 | a run in the chosen mode, and the configured mode restored |
| IntegrationService.Service.ComparePerformance | core/element_centric_integration_service.py:341-392 | nothing unless both succeed and the legacy time is non-zero; else the improvement in percent, recorded, and its recommendation |
| IntegrationService.Service.GetIntegrationStatistics | core/element_centric_integration_service.py:452-460 | the number of conversions, the fallback rate, the usage of each mode and the improvements |

## Left out

- File and console I/O, logging and the messages the source writes; error messages are not modelled, only that an error occurs.
- IFC entity construction through ifcopenshell: every created entity is an opaque `Token` or a small record numbered by an entity counter; GlobalIds from `uuid`/`create_ifc_guid` and the GUID compression are not modelled.
- Python's `float` formatting, `str`, `hashlib.md5`, `math.sqrt`/vector norms and trigonometry are parameters of the members that use them; their results are not interpreted.
- `float()` parsing accepts signed decimal numerals with an optional fraction, surrounded by whitespace; exponents, `inf`, `nan` and underscores are not accepted.
- Case mapping (`lower`, `upper`) and `\d` in regular expressions are ASCII only; `strip` removes the ASCII whitespace characters only.
- Dictionary order is modelled where the source depends on it, by sequences of keys; elsewhere maps are unordered.
- Element ids and other dictionary keys are assumed hashable; an unhashable id, which raises `TypeError` in the source, is not modelled.
- The XML tree: ElementTree's XPath queries are modelled as searches of `.//stb:Name` by local name; namespaces other than the STB one are not distinguished.
- `XmlParserCache.Cache`: the weak-value dictionary is modelled as an ordinary map, so entries never vanish when the caller drops a root.
- Aliasing of dictionaries that the source mutates in place (an element dict shared between lists) is not modelled; the model returns updated copies.
- Time, elapsed-time, memory and throughput fields of statistics and results are not modelled.
- `convert_all_elements` in core/element_centric_converter.py (96-165) is wiring of the modelled stages (story elevations, batch analysis, creation with story info) inside a try that returns an empty result; the wiring itself and `_calculate_final_statistics` / `get_conversion_statistics` (timing and copies of fields) are not modelled.
- `_create_spatial_relationships` of the converter (389-404) only delegates to the relationship manager, whose relation building is modelled.
- The integration service's timings (`time.time`) are parameters; any exception in a conversion is collapsed to "no result".
- `count_stb_elements` and `count_ifc_elements` in core/element_counter.py count by regular expression over file text and are not modelled; `compare_conversion` takes the counts as inputs. `print_comparison_report` is output only.
- The thin `parse_*` wrappers of core/element_parsing_service.py delegate to the unified parser, which is the `defs` parameter.
- `get_analysis_statistics` of the story analyzer returns constant zeros and is not modelled.
- Grid axes: coordinates and angles may be numbers or booleans (read as 1 or 0), text fails, as in Python; `GridPropertyManager` is a placeholder and `_create_ifc_grid` builds IFC entities, neither is modelled; the axis direction normalisation uses `sqrt` and is left out.
- ColumnCreator: `_create_section_profile`'s IFC calls, `_create_placement`, `_create_column_object`, `_associate_type_and_material`, `_set_column_properties`, `create_columns` and `create_column_from_definition` build IFC entities and are not modelled.
- WallCreator: `_create_placement`, `_create_wall_object`, `_set_wall_properties`, `create_walls` and `create_wall_from_definition` build IFC entities and are not modelled.
- StructuralSection: the constructor sets each property as an attribute, so a property named `properties` would replace the property dict; this is not modelled. `get_standardized_profile_name` (ifcCreator/utils/structural_section.py:95-131) only delegates to the profile naming rules, which are modelled.
- ProfileService `get_profile_factory` and PropertyService `get_property_manager` return the object itself and are not modelled.
- PropertyService: the first `create_structural_properties` (ifcCreator/services/property_service.py:704-719) is shadowed by the second definition and is not modelled; property labels made with `str(value)` are the `show` parameter.
- Factory.CreateElementsOf: the class method tracks each created element with its own definition, the corrected pairing; the as-written pairing of the i-th result with the i-th definition is `TrackAsWritten`, shown to differ by `TrackingMisaligned`. StoryConverter's duplicate filters, storey grouping and `TrackedBeamFound` are therefore proved over the corrected tracking.
- StoryConverter: the STB parser that `_get_element_definitions` calls is the `parse` parameter of `ConvertElementsForStory`; its exceptions are its `Err` results.
- ElementCreationFactory `get_created_elements` and `get_usage_stats` only copy fields and are not modelled.
- Recorded quirks of the source, kept as written and stated as lemmas: TypeCreator's cache is keyed by name alone, whatever the kind; a cached material keeps the description it was first made with; type rules compare case-sensitively while material rules upper-case the name; a level brace of zero length gets the diagonal default direction; a selection of STORY alone leaves every member list empty; a wall opening entry that is not a dict aborts the whole wall; an RC beam's unguarded `float` of width or depth raises out of the whole pass; a wall with two corners passes validation but is never built; an element's own floor is overwritten by the node story map; two elements with the same name in one batch are both kept; the profile cache key ignores attributes it does not list; id-less elements at the same position collide in the converter's duplicate check; an automatic integration run writes two history entries.

## Findings

| source | as written | input that shows it | evidently intended | confidence | as-written member | corrected member |
|---|---|---|---|---|---|---|
| stbParser/unified_section_processor.py:19-53 | `dispatch_steel_shape` calls five extractor methods that do not exist; the AttributeError is caught and the section is dropped | a steel shape whose kind is Roll-L (also Build-T, Roll-T, LipC, Roll-FB) | each shape is parsed by its family's extractor | not executed | UnifiedSection.RollLLostAsWritten, UnifiedSection.RollLExample | UnifiedSection.DispatchSteelShapeFixed |
| stbParser/column_extractor.py:155-157 | the column extractor stores a tapered column's sections under `sec_bottom`/`sec_top`, while common/definition_processor.py:93-94 reads `section_bottom`/`section_top` | a column whose section has different bottom and top shapes | the definition keeps both end sections | not executed | DefinitionProcessor.ExtractedTaperedColumnLost | DefinitionProcessor.ExtractedTaperedColumnKeptFixed |
| ifcCreator/utils/validator.py:122-134 | column validation indexes `definition['section']`, which is absent or None for a tapered column | a processed tapered column definition | a tapered column with both end sections is valid | not executed | Validator.TaperedColumnRejected, Validator.ProcessedTaperedColumnRejected | Validator.TaperedColumnAcceptedFixed |
| ifcCreator/core/element_creation_factory.py:90-93 | the i-th created element is tracked with the i-th definition, although failed creations are skipped | two definitions of which the first fails to create | each created element is tracked with its own definition | not executed | ElementCreationFactory.TrackingMisaligned | ElementCreationFactory.TrackRecordsSource |
| ifcCreator/creators/column_creator.py:327-349 | the tapered shape is built through `self.ifc`, which no constructor sets; the AttributeError is caught and the column is not created | any column whose bottom and top sections differ | the tapered solid is built in the project's IFC file | not executed | ColumnCreator.TaperedColumnNeverCreated | ColumnCreator.TaperedColumnCreatedFixed |
