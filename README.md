# Problems table and detail panel: a Dafny model

This project models the rendering core of the problems panel
(`src/panel-triggers/components/Problems.tsx`). The panel shows monitoring
problems (triggers) as a table and can expand a row into a detail panel. The
model keeps the decisions the views make and drops the markup:

- **Column composition** (`ProblemList`). There is a fixed master list of ten
  column descriptors. The panel's display options choose which optional
  columns are kept. A column stays when its `show` key is true or undefined.
  `show` is deleted from every column that stays. The time column's width
  comes from the first problem's last-change timestamp. `BuildColumns` keeps
  the source's loop over a mutable column array. It is proved equal to the
  filter `Columns`, and the lemmas about that filter state which columns
  appear, in which order and with which widths.
- **Cell formatters** (`Cells`). These cover the status text and colour, the
  joined host-group names, the description with its notes icon, the tag chips
  and their keys, and the item list (names shown only when there are several
  items).
- **The detail panel** (`Details`). It selects and orders its blocks: age,
  items, description, multi-event badge, tags, acknowledgements, datasource,
  proxy, groups and maintenance. It also says what each block shows. The
  one-shot `show` flag of its entry transition is the class `ProblemDetails`.

Records are the `Trigger` datatype of `Triggers`. JavaScript truthiness of
optional strings is modelled by `Triggers.Truthy`: a string is truthy when it
is present and not empty. An empty array is truthy in JavaScript, so a present
list always counts as present, even when it is empty. The record's `type`
field is named `eventType`, because `type` is a Dafny keyword.

Three behaviours of the code deserve a note:

- The detail panel renders the item list whenever `items` is present, even
  when it is empty. For an empty list the single-item branch passes
  `items[0]`, which is `undefined`, to the item renderer, and reading its
  `lastvalue` there fails. The model therefore requires a present item list to
  be non-empty (`Details.Renderable`, and the precondition of
  `Cells.ProblemItems`). It does not treat an empty list as absent.
- The deferred visibility flip has no disposal guard in the code. A panel
  flips to shown whenever its callback runs. `ProblemDetails.Enter` is that
  callback, and it has no guard either.
- A column is kept when its option is unset as well as when it is `true`. It
  is dropped only when the option is explicitly `false`.

## Model

| member | source | states |
|---|---|---|
| ProblemList.TimeColumnWidth | src/panel-triggers/components/Problems.tsx:17 | Definition of the time column width; properties in `ProblemList.ColumnWidths` and `ProblemList.ColumnsDependOnFirstTimestamp` |
| ProblemList.MasterColumns | src/panel-triggers/components/Problems.tsx:18-29 | The master list has ten columns; its headers and widths are stated in `ProblemList.ColumnHeaders` and `ProblemList.ColumnWidths` |
| ProblemList.Kept | src/panel-triggers/components/Problems.tsx:30-36 | Definition of the filter; properties in `ProblemList.KeptIsOrderedFilter`, `ProblemList.KeptCleared`, `ProblemList.KeptAppend` and `ProblemList.KeptIdempotent` |
| ProblemList.Columns | src/panel-triggers/components/Problems.tsx:13-37 | Definition of the column list; properties in `ProblemList.BuildColumns`, `ProblemList.ColumnHeaders` and `ProblemList.ColumnWidths` |
| ProblemList.BuildColumns | src/panel-triggers/components/Problems.tsx:13-37 | The loop over the column array returns exactly the order-preserving filter `Columns` of the master list, built with the time width of the first problem |
| ProblemList.KeptIsOrderedFilter | src/panel-triggers/components/Problems.tsx:30-35 | The k-th result column is the input column at the k-th kept position with `show` deleted; kept positions strictly increase; a position is kept if and only if its `show` is true or undefined |
| ProblemList.KeptCleared | src/panel-triggers/components/Problems.tsx:31-33 | No column in the result carries a `show` key |
| ProblemList.KeptAppend | src/panel-triggers/components/Problems.tsx:30-35 | Filtering a concatenation is concatenating the filtered parts |
| ProblemList.KeptIdempotent | src/panel-triggers/components/Problems.tsx:30-35 | Filtering the result again changes nothing |
| ProblemList.ColumnHeaders | src/panel-triggers/components/Problems.tsx:18-35 | The result's headers are, in order: Host, Host (Technical Name), Host Groups, Proxy, Severity and Status, each unless its option is false; then Problem; then Tags unless its option is false; then Time and Details |
| ProblemList.ColumnWidths | src/panel-triggers/components/Problems.tsx:17-29 | The Time column is 9 pixels per character of the first problem's last-change timestamp, or 160 with no problems. Severity is 120, Status 100 and Details 60. Problem has no fixed width and a minimum width of 200. No result column keeps `show` |
| ProblemList.ColumnsDependOnFirstTimestamp | src/panel-triggers/components/Problems.tsx:17 | Two non-empty problem lists whose first timestamps have the same length give the same columns |
| Cells.StatusCell | src/panel-triggers/components/Problems.tsx:74-81 | The status is "OK" if and only if the value is "0", and "PROBLEM" otherwise; the colour is the ok colour for OK and the problem colour otherwise |
| Cells.DefaultStatusColor | src/panel-triggers/components/Problems.tsx:71-81 | With the default colours, the colour is rgb(56, 189, 113) if and only if the value is "0", and rgb(215, 0, 0) if and only if it is not |
| Cells.Join | src/panel-triggers/components/Problems.tsx:86 | Definition of joining with a separator; properties in `Cells.JoinLayout` and `Cells.OffsetNext` |
| Cells.GroupNames | src/panel-triggers/components/Problems.tsx:86 | One name per group, in list order |
| Cells.OffsetNext | src/panel-triggers/components/Problems.tsx:86 | In a joined string, each part starts one part and one separator after the previous part |
| Cells.JoinLayout | src/panel-triggers/components/Problems.tsx:86 | In the joined string, every part sits at its offset; a separator follows every part but the last; the last part ends the string |
| Cells.GroupCell | src/panel-triggers/components/Problems.tsx:83-91 | A missing or empty group list gives the empty string; one group gives its name; otherwise the names are joined by ", " |
| Cells.ProblemCell | src/panel-triggers/components/Problems.tsx:93-101 | The cell shows the description; the notes icon appears if and only if the comment is present and non-empty |
| Cells.TagChips | src/panel-triggers/components/Problems.tsx:104-107 | One chip per tag, in order, each keyed by tag name followed by tag value |
| Cells.TagCell | src/panel-triggers/components/Problems.tsx:103-108 | A missing tag list gives no chips; otherwise one chip per tag, in list order, keyed by tag name followed by tag value |
| Cells.NamedLines | src/panel-triggers/components/Problems.tsx:155 | Every item is shown with its name and last value, in list order |
| Cells.ProblemItems | src/panel-triggers/components/Problems.tsx:151-158 | There is one line per item, with its last value, in order. The lines carry names if and only if there is more than one item |
| Details.AckLines | src/panel-triggers/components/Problems.tsx:217-222 | One line per acknowledgement, in record order, with its time, user and message |
| Details.DetailGroups | src/panel-triggers/components/Problems.tsx:193-196 | Definition of the panel's group text; properties in `Details.DetailGroupsAgree` |
| Details.DetailGroupsAgree | src/panel-triggers/components/Problems.tsx:193-196 | The panel's group text equals the table's group cell for every group list, including a present empty one |
| Details.RegionBlocks | src/panel-triggers/components/Problems.tsx:201-244 | Definition of what one region renders; properties in `Details.RegionBlocksShown` and `Details.RegionFromRecord` |
| Details.DetailBlocks | src/panel-triggers/components/Problems.tsx:198-245 | Definition of the panel's blocks; properties in `Details.DetailBlockSelection`, `Details.DetailBlocksFromRecord`, `Details.DetailBlocksUnrolled` and `Details.BareRecordBlocks` |
| Details.RegionBlocksShown | src/panel-triggers/components/Problems.tsx:198-245 | Each region renders at most one block, of its own kind, and renders one if and only if the record calls for it |
| Details.RegionsBlocksSelection | src/panel-triggers/components/Problems.tsx:198-245 | Regions taken in increasing layout order give blocks in strictly increasing layout order: one block for each region the record calls for, and no others |
| Details.DetailBlockSelection | src/panel-triggers/components/Problems.tsx:198-245 | The panel shows a block of each kind if and only if the record calls for it. Age, tags, datasource and groups are always shown. Items and acknowledgements are shown when present; comment and proxy when non-empty; the badge for type "1"; maintenance when set. The blocks come in strictly increasing layout order, so each kind appears at most once |
| Details.DetailBlocksFromRecord | src/panel-triggers/components/Problems.tsx:198-245 | Every block shows what the record holds. Items are in order, with names exactly when there are several. Named items carry their own names. Tag chips and acknowledgements are in order. The comment, proxy, age and datasource are shown verbatim. The group text is the table's group cell |
| Details.DetailBlocksUnrolled | src/panel-triggers/components/Problems.tsx:198-245 | The panel's blocks are the ten regions' blocks, region after region, in layout order |
| Details.BareRecordBlocks | src/panel-triggers/components/Problems.tsx:198-245 | A record with no items, acknowledgements or maintenance flag, with a missing or empty comment and proxy, and of a type other than "1", shows exactly: age, tags region, datasource and groups |
| Details.ProblemDetails.constructor | src/panel-triggers/components/Problems.tsx:177-182 | A new panel holds its record and is not yet shown |
| Details.ProblemDetails.Enter | src/panel-triggers/components/Problems.tsx:184-187 | The deferred callback sets the panel to shown |
| Details.ProblemDetails.DisplayClass | src/panel-triggers/components/Problems.tsx:192 | The container's extra class is "show" if and only if the panel is shown, and empty otherwise |

## Left out

- Markup and styling: the JSX elements, class names other than the panel's `show` class, icons (`FAIcon`, `CustomExpander`), and the severity cell's background colour (`SeverityCell` only places the value in a coloured box and makes no decision). A column's formatter is recorded as a `Renderer` tag.
- The table widget (`ReactTable`): paging, the loading flag, the page size and row expansion. `ProblemList.render` only passes the columns and problems on to it.
- `console.log` in `ProblemList.render`: logging only.
- Timing of `requestAnimationFrame`: `Enter` is the callback. When the browser calls it is outside the model, and so is the setState batching.
- `EventTag` and the type declarations in `../types`: they are not part of this model. A tag is an opaque (tag, value) pair and a chip records which tag it shows.
- React keys of item and acknowledgement elements (`itemid`, `acknowledgeid`): they only identify siblings for the renderer. Tag chip keys are kept, because they are built from the tag's own fields.
- String lengths are counted in characters, not in UTF-16 code units.
- Option values other than `true`, `false` and undefined. The options are typed as booleans.
- Details.Renderable: a present but empty item list is excluded, because the code fails on it (see above). The model does not say what the page shows then.
