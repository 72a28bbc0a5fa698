# hub-site-genie core, modelled in Dafny

hub-site-genie is a web application that turns React components into WordPress theme
files. It also keeps an administration area of users, customers, projects and API keys in
the browser's local storage. This project models the logic of that application and proves
properties of the model:

- **The structural extractor** (`CodeAnalyzer`). One traversal of a component's syntax
  tree collects the import sources, the hook calls and the `useState` state variables. The
  preview text is then generated from those facts.
- **The theme template synthesiser** (`ThemeConverter`). Three string templates (the PHP
  page, the stylesheet and `functions.php`) depend only on the component's name.
- **The record store** (`StorageService`, with the record types in `AdminTypes`). It
  models the read-modify-write operations on the keyed store, covering users, login,
  API keys, customers (with their cascade to projects) and projects.
- **The API-key hooks** (`UseApiKeys`, `UseApiKeysManagement`) and **the key table**
  (`ApiKeysTable`), which masks keys.
- **The dashboards**:
  - the admin dashboard's counters and short lists (`Dashboard`);
  - the upsert-by-name of generated components (`WordPressConversionDashboard`);
  - the five-step workflow cursor (`ConversionWorkflow`);
  - the step tracker (`ProgressTracker`).
- **The simulated Lovable.dev client** (`LovableIntegration`): the project slug and URL,
  the mock component, and the fixed preview URL.
- **The design form's component list** (`LayoutSection`) and **the theme-file editor**
  (`ThemeFilesSection`). The editor writes into a record it shares with its parent.

`JsString`, `JsArray` and `Wrappers` hold the JavaScript string and array built-ins the
model needs, and the `Option` and `Result` types.

The code works in two styles, and each is modelled in its own form:

- **Code that changes state.** This covers the analysis record its visitors push into,
  the keyed store, React state and shared file records. It is modelled as classes whose
  methods state their whole new state.
- **Code that only builds values.** Templates, masks, filters and slugs are modelled as
  functions, with lemmas about them.

The parser, local storage, `uuid`, the clock and `window.confirm` are parameters.

Two facts about the source shape the model:

- `convertReactToWordPress` never calls `analyzeReactCode` and never reads `code` or
  `dependencies` (themeConverter.ts:17-32, 34-73), though its comment at
  themeConverter.ts:19-20 says a real implementation would analyse the component. So
  `ConvertReactToWordPress` depends on the name alone.
- The state-variable rule (codeAnalyzer.ts:40-50) tests only the pattern's first element
  and does not check the pattern's length.

## Model

| member | source | states |
|---|---|---|
| CodeAnalyzer.OwnCounts | src/utils/wordpress/codeAnalyzer.ts:35-52 | A node pushes one state variable exactly when it declares state through `useState`, and one "useState" hook exactly when it calls `useState`; otherwise none. |
| CodeAnalyzer.Analysis.constructor | src/utils/wordpress/codeAnalyzer.ts:16-22 | All five lists of the analysis record start empty. |
| CodeAnalyzer.Analysis.ImportDeclaration | src/utils/wordpress/codeAnalyzer.ts:32-34 | The import visitor appends the node's facts to the record and changes nothing else. |
| CodeAnalyzer.Analysis.CallExpression | src/utils/wordpress/codeAnalyzer.ts:35-39 | The call visitor appends the node's hook, if any, to the record. |
| CodeAnalyzer.Analysis.VariableDeclarator | src/utils/wordpress/codeAnalyzer.ts:40-52 | The declarator visitor appends the node's state variable, if any, to the record. |
| CodeAnalyzer.Analysis.Traverse | src/utils/wordpress/codeAnalyzer.ts:31-53 | Traversing a node appends exactly the facts of its subtree, the node itself before its children. |
| CodeAnalyzer.Analysis.TraverseAll | src/utils/wordpress/codeAnalyzer.ts:31-53 | Traversing a list of nodes appends the facts of each subtree in list order. |
| CodeAnalyzer.CollectPreOrder | src/utils/wordpress/codeAnalyzer.ts:31-53 | The traversal's facts are the facts of the subtree's nodes taken one by one in pre-order. |
| CodeAnalyzer.CollectAllPreOrder | src/utils/wordpress/codeAnalyzer.ts:31-53 | The same holds for a program body, a list of statements. |
| CodeAnalyzer.Collect | src/utils/wordpress/codeAnalyzer.ts:16-53 | The facts of one subtree never include components or props: no visitor fills them. |
| CodeAnalyzer.CollectAll | src/utils/wordpress/codeAnalyzer.ts:16-53 | The facts of a list of subtrees never include components or props either. |
| CodeAnalyzer.FactsOfConcat | src/utils/wordpress/codeAnalyzer.ts:31-53 | The facts of two node sequences in a row are the first's facts followed by the second's, with order and duplicates kept. |
| CodeAnalyzer.HooksOfIff | src/utils/wordpress/codeAnalyzer.ts:35-39 | A name is among the hooks exactly when some visited call has a bare callee of that name starting with "use". |
| CodeAnalyzer.DependenciesOfIff | src/utils/wordpress/codeAnalyzer.ts:32-34 | A string is among the dependencies exactly when some visited import has it as its source. |
| CodeAnalyzer.StateBound | src/utils/wordpress/codeAnalyzer.ts:35-52 | In a subtree, the state variables plus the root's own `useState` call never outnumber the "useState" entries in hooks. |
| CodeAnalyzer.StateBoundAll | src/utils/wordpress/codeAnalyzer.ts:35-52 | In a whole program, the state variables never outnumber the "useState" entries in hooks. |
| CodeAnalyzer.NeverPopulated | src/utils/wordpress/codeAnalyzer.ts:16-22 | The components and props lists stay empty whatever is visited. |
| CodeAnalyzer.ProgramFacts | src/utils/wordpress/codeAnalyzer.ts:16-53 | For any program, components and props are empty and state variables are bounded by the `useState` hooks. The hooks are exactly the hook calls found in pre-order. |
| CodeAnalyzer.StateDeclarationExample | src/utils/wordpress/codeAnalyzer.ts:40-52 | `const [count, setCount] = useState(0)` yields the state variable "count" and the hook "useState". |
| CodeAnalyzer.HoleSkippedExample | src/utils/wordpress/codeAnalyzer.ts:46-47 | A declarator whose first slot is a hole records the hook but no state variable. |
| CodeAnalyzer.CalleeExamples | src/utils/wordpress/codeAnalyzer.ts:36 | `React.useState()` is not a hook, because its callee is not a bare identifier; `user()` is one. |
| CodeAnalyzer.DuplicateImportsKept | src/utils/wordpress/codeAnalyzer.ts:33 | Importing the same module twice lists it twice. |
| CodeAnalyzer.AnalyzeReactCode | src/utils/wordpress/codeAnalyzer.ts:15-60 | The analysis fails with "Could not analyze component code" exactly when parsing fails. Otherwise the result is the pre-order facts of the program, and its components and props are empty. |
| CodeAnalyzer.DependencyLines | src/utils/wordpress/codeAnalyzer.ts:68 | There is one import line per dependency, in order. |
| CodeAnalyzer.HookLines | src/utils/wordpress/codeAnalyzer.ts:71 | There is one hook-call line per hook entry, in order. |
| CodeAnalyzer.PreviewTrimmed | src/utils/wordpress/codeAnalyzer.ts:65-81 | The preview template is unchanged by `trim`, so the preview is exactly the template's pieces. |
| CodeAnalyzer.PreviewFrame | src/utils/wordpress/codeAnalyzer.ts:65-81 | The preview starts with the header comment and the React import, and ends with `export default <name>;`. |
| CodeAnalyzer.PreviewImportsEachDependency | src/utils/wordpress/codeAnalyzer.ts:68 | Each dependency's import line appears in the preview. |
| CodeAnalyzer.PreviewCallsEachHook | src/utils/wordpress/codeAnalyzer.ts:71 | Each hook's `const <lower> = <hook>();` line appears in the preview. |
| CodeAnalyzer.PreviewText | src/utils/wordpress/codeAnalyzer.ts:65-81 | The trimmed preview starts and ends with a character that is not white space. |
| CodeAnalyzer.GeneratePreview | src/utils/wordpress/codeAnalyzer.ts:62-82 | The preview fails exactly when analysing the component's code fails, with the same message. Otherwise it is the preview text of the component's name and the analysis. |
| ThemeConverter.ConvertReactToWordPress | src/utils/wordpress/themeConverter.ts:17-32 | The conversion always succeeds, with an empty error list. |
| ThemeConverter.ConvertDependsOnlyOnName | src/utils/wordpress/themeConverter.ts:17-73 | Two inputs with the same name convert identically, whatever their code and dependencies. |
| ThemeConverter.ClassName | src/utils/wordpress/themeConverter.ts:42 | The class is `component-` followed by the name with each character lower-cased in place, so it is ten characters longer than the name and has no upper-case letter. |
| ThemeConverter.ClassNameIgnoresCase | src/utils/wordpress/themeConverter.ts:42 | Names that differ only in letter case get the same class. |
| ThemeConverter.GeneratePHPTemplate | src/utils/wordpress/themeConverter.ts:34-51 | The PHP page template is trimmed: neither end is white space. |
| ThemeConverter.GenerateCSS | src/utils/wordpress/themeConverter.ts:53-61 | The stylesheet is trimmed: neither end is white space. |
| ThemeConverter.GenerateFunctionsPhp | src/utils/wordpress/themeConverter.ts:63-73 | The `functions.php` text is trimmed: neither end is white space. |
| ThemeConverter.PhpTrimmed | src/utils/wordpress/themeConverter.ts:34-51 | `trim` leaves the PHP template's pieces whole. |
| ThemeConverter.CssTrimmed | src/utils/wordpress/themeConverter.ts:53-61 | `trim` leaves the stylesheet's pieces whole. |
| ThemeConverter.FunctionsTrimmed | src/utils/wordpress/themeConverter.ts:63-73 | `trim` leaves the `functions.php` pieces whole. |
| ThemeConverter.PhpTemplateOpening | src/utils/wordpress/themeConverter.ts:36-39 | The PHP page starts with `<?php` and the header comment naming the raw component name. |
| ThemeConverter.PhpTemplateClosing | src/utils/wordpress/themeConverter.ts:49-50 | The PHP page ends with `<?php get_footer(); ?>`. |
| ThemeConverter.PhpTemplateOrder | src/utils/wordpress/themeConverter.ts:39-49 | `get_header();`, the component's div and the footer call appear in that order. |
| ThemeConverter.CssTemplateLayout | src/utils/wordpress/themeConverter.ts:55-60 | The stylesheet is the "Generated styles for" comment followed by one empty rule for `.component-<lower(name)>`. |
| ThemeConverter.SharedClassName | src/utils/wordpress/themeConverter.ts:42-57 | The PHP div's class and the stylesheet's selector are the same class name. |
| ThemeConverter.FunctionsTemplateOpening | src/utils/wordpress/themeConverter.ts:66-67 | `functions.php` starts with `<?php` and the comment naming the component. |
| ThemeConverter.FunctionsTemplateEnqueue | src/utils/wordpress/themeConverter.ts:68-69 | `functions.php` defines `register_<lower>_scripts`, enqueues the `<lower>-styles` handle, and uses a path ending in `/assets/css/<lower>.css`. |
| ThemeConverter.FunctionsTemplateClosing | src/utils/wordpress/themeConverter.ts:71 | `functions.php` ends by hooking the function it defined into `wp_enqueue_scripts`. |
| StorageService.GetItem | src/utils/admin/storageService.ts:6-14 | An absent, empty or unparseable entry reads as the default. Otherwise the stored value is returned. |
| StorageService.InitialUsers | src/utils/admin/storageService.ts:28-50 | An empty user list becomes the admin and the consultant; any other list stays as it is. |
| StorageService.InitialUsersIdempotent | src/utils/admin/storageService.ts:28-50 | Initialising twice gives the same users as initialising once. |
| StorageService.UpdateFirst | src/utils/admin/storageService.ts:93-104 | No match gives no result. Otherwise only the first matching record is rewritten and the length is kept. |
| StorageService.DeleteReportsMatch | src/utils/admin/storageService.ts:106-116 | The filtered list is shorter exactly when some record carried the id, and no kept record carries it. |
| StorageService.CascadeLeavesNone | src/utils/admin/storageService.ts:171-174 | After the cascade, no project belongs to the deleted customer. |
| StorageService.CascadeKeepsOthers | src/utils/admin/storageService.ts:171-174 | Every other customer's projects are kept, in order. |
| StorageService.Storage.GetCustomerById | src/utils/admin/storageService.ts:125-128 | The result is a stored customer with that id, or none exactly when no stored customer has it. |
| StorageService.Storage.GetProjectById | src/utils/admin/storageService.ts:194-197 | The result is a stored project with that id, or none exactly when no stored project has it. |
| StorageService.Storage.GetProjectsByCustomerId | src/utils/admin/storageService.ts:189-192 | The result holds exactly the stored projects of that customer. |
| StorageService.Storage.InitializeUsers | src/utils/admin/storageService.ts:28-50 | The two default users are written only when no user is stored; otherwise the store is unchanged. |
| StorageService.Storage.LoginUser | src/utils/admin/storageService.ts:52-62 | Login returns the first user with that email and makes it the current user. An unknown email returns nothing and writes nothing. |
| StorageService.Storage.LogoutUser | src/utils/admin/storageService.ts:64-70 | Only the current-user entry is removed, after which no user is current. |
| StorageService.Storage.SaveApiKey | src/utils/admin/storageService.ts:79-91 | The key list gains exactly one record at the end, with the fresh id and timestamp. |
| StorageService.Storage.UpdateApiKey | src/utils/admin/storageService.ts:93-104 | The updates are merged into the first key with the id, and the merged record is returned. A missing id writes nothing and returns nothing. |
| StorageService.Storage.DeleteApiKey | src/utils/admin/storageService.ts:106-116 | Deletion reports true exactly when some key had the id, and then every key with it is removed. On false nothing is written. |
| StorageService.Storage.SaveCustomer | src/utils/admin/storageService.ts:130-144 | The customer list gains exactly one record at the end, with createdAt equal to updatedAt. |
| StorageService.Storage.UpdateCustomer | src/utils/admin/storageService.ts:146-162 | The updates are merged into the first customer with the id, with a fresh updatedAt. A missing id writes nothing. |
| StorageService.Storage.DeleteCustomer | src/utils/admin/storageService.ts:164-180 | Deletion reports true exactly when the id existed. On true the customer and all of its projects go, and every other customer keeps its projects. On false nothing is written. |
| StorageService.Storage.SaveProject | src/utils/admin/storageService.ts:199-213 | The project list gains exactly one record at the end, with createdAt equal to updatedAt. |
| StorageService.Storage.UpdateProject | src/utils/admin/storageService.ts:215-231 | The updates are merged into the first project with the id, with a fresh updatedAt. A missing id writes nothing. |
| StorageService.Storage.DeleteProject | src/utils/admin/storageService.ts:233-243 | Deletion reports true exactly when the id existed, and then every project with it is removed. On false nothing is written. |
| AdminTypes.MergeApiKeyEmpty | src/utils/admin/storageService.ts:98 | An empty update leaves a key as it is. |
| AdminTypes.MergeApiKeyIdempotent | src/utils/admin/storageService.ts:98 | Applying the same update twice equals applying it once. |
| AdminTypes.MergeCustomerStamps | src/utils/admin/storageService.ts:151-155 | A merge keeps the id and createdAt and always sets updatedAt to the current time, overriding a caller's updatedAt. |
| AdminTypes.MergeProjectStamps | src/utils/admin/storageService.ts:220-224 | A merge keeps the id and createdAt and always sets updatedAt to the current time, overriding a caller's updatedAt. |
| UseApiKeys.ActiveKey | src/hooks/useApiKeys.ts:12-16 | The result is the key of the first active record of the service, and is null when there is none or that key is empty. |
| UseApiKeys.ActiveKeyIgnoresInactive | src/hooks/useApiKeys.ts:13-16 | Inactive records and other services are never chosen. |
| UseApiKeys.UpdateKeyTargetsFirstOfService | src/hooks/useApiKeys.ts:21-30 | With unique ids, updating by the found record's id rewrites the first record of the service, active or not. |
| UseApiKeys.ApiKeyHook.constructor | src/hooks/useApiKeys.ts:8-9 | The hook starts with no key and loading. |
| UseApiKeys.ApiKeyHook.LoadEffect | src/hooks/useApiKeys.ts:11-18 | The effect sets the active key of the service and clears loading. |
| UseApiKeys.ApiKeyHook.UpdateKey | src/hooks/useApiKeys.ts:20-35 | The stored list is rewritten by the update the store applies to the first record whose id is that of the first record of the service. That record is the service's own only when ids are unique (UpdateKeyTargetsFirstOfService). With no record of the service the store is unchanged. Either way the hook's key becomes the new key. |
| UseApiKeysManagement.ToggleShow | src/hooks/useApiKeysManagement.ts:46-48 | Toggling flips only the id's visibility, with an absent entry counting as hidden. |
| UseApiKeysManagement.ToggleShowTwice | src/hooks/useApiKeysManagement.ts:46-48 | Toggling twice restores every key's visibility. |
| UseApiKeysManagement.ToggleSetsNegation | src/hooks/useApiKeysManagement.ts:32-34 | The toggled record's active flag becomes the negation of the argument, not of the stored flag, and all other records stay. |
| UseApiKeysManagement.ApiKeysManagement.constructor | src/hooks/useApiKeysManagement.ts:13-14 | The hook starts with no keys and no visible key. |
| UseApiKeysManagement.ApiKeysManagement.LoadApiKeys | src/hooks/useApiKeysManagement.ts:16-18 | The hook's list becomes exactly the stored list. |
| UseApiKeysManagement.ApiKeysManagement.HandleCreateApiKey | src/hooks/useApiKeysManagement.ts:20-30 | An empty name or key is refused and nothing changes. Otherwise the stored map changes only at the API-key entry, which becomes the old list with the one new record appended; true is returned and the list is reloaded. |
| UseApiKeysManagement.ApiKeysManagement.HandleToggleActive | src/hooks/useApiKeysManagement.ts:32-36 | The stored record's active flag is set to the negated argument, and the list is reloaded. |
| UseApiKeysManagement.ApiKeysManagement.HandleDeleteKey | src/hooks/useApiKeysManagement.ts:38-44 | When declined, the store and the list are unchanged. When confirmed and some record has the id, the stored map changes only at the API-key entry, which becomes the list without that id; when no record has it, the map is unchanged. Either way the list is reloaded. |
| UseApiKeysManagement.ApiKeysManagement.ToggleShowKey | src/hooks/useApiKeysManagement.ts:46-48 | Only the visibility map changes, by one toggle. |
| ApiKeysTable.DisplayedKey | src/components/admin/ApiKeysTable.tsx:52-54 | A shown key is displayed in full. |
| ApiKeysTable.MaskedKey | src/components/admin/ApiKeysTable.tsx:54 | The mask is the first three characters of the key (fewer when the key is shorter), then seven bullets, then the last three; its length follows from that. |
| ApiKeysTable.MaskedLongKey | src/components/admin/ApiKeysTable.tsx:54 | A hidden key of length 3 or more is shown as its first 3 characters, 7 bullets and its last 3, always 13 characters (counted as Unicode characters). |
| ApiKeysTable.MaskedShortKey | src/components/admin/ApiKeysTable.tsx:54 | A hidden key shorter than 3 is shown as the key, the bullets and the key again. |
| ApiKeysTable.MaskedShortKeyRevealed | src/components/admin/ApiKeysTable.tsx:54 | A key of 6 characters or fewer has each of its characters visible in the mask. |
| ApiKeysTable.StatusLabel | src/components/admin/ApiKeysTable.tsx:71 | The label is "Aktiv" exactly when the key is active. |
| ApiKeysTable.Rows | src/components/admin/ApiKeysTable.tsx:36-89 | An empty list renders one placeholder row spanning 6 columns; otherwise there is one row per key, in order. |
| ApiKeysTable.RowsReport | src/components/admin/ApiKeysTable.tsx:43-82 | Each row shows the key's label and its full or masked key. Its toggle, delete and show callbacks receive that key's id, and the toggle also receives the active flag. |
| Dashboard.ProjectCountsBounded | src/pages/admin/Dashboard.tsx:24-25 | Active plus completed projects never exceed the number of projects. |
| Dashboard.ActiveProjects | src/pages/admin/Dashboard.tsx:24 | The in-progress count is at most the number of projects, and it is positive exactly when some project is in progress. |
| Dashboard.CompletedProjects | src/pages/admin/Dashboard.tsx:25 | The completed count is at most the number of projects, and it is positive exactly when some project is completed. |
| Dashboard.InactiveApiKeys | src/pages/admin/Dashboard.tsx:26-64 | The inactive-key count is at most the number of keys, and it is positive, so the warning shows, exactly when some key is inactive. |
| Dashboard.RecentCustomers | src/pages/admin/Dashboard.tsx:80-84 | The empty state shows exactly when there are no customers; otherwise the card lists the first min(5, n) customers. |
| Dashboard.ActiveProjectList | src/pages/admin/Dashboard.tsx:102-108 | The empty state shows exactly when no project is in progress. Otherwise the card lists the first min(5, n) projects in progress, in order. |
| Dashboard.NoActiveProjectsShowsEmpty | src/pages/admin/Dashboard.tsx:102-103 | With no project in progress, the card shows its empty-state message. |
| Dashboard.DashboardPage.constructor | src/pages/admin/Dashboard.tsx:14-16 | The three lists start empty. |
| Dashboard.DashboardPage.LoadEffect | src/pages/admin/Dashboard.tsx:18-22 | The effect loads exactly the stored customers, projects and keys. |
| LovableIntegration.ReplaceRuns | src/utils/wordpress/lovableIntegration.ts:48 | The replacement leaves no white space. A leading white space run becomes `-`, and a leading other character is kept. |
| LovableIntegration.ReplaceRunsOfSpaceless | src/utils/wordpress/lovableIntegration.ts:48 | The replacement leaves a string without white space as it is. |
| LovableIntegration.ReplaceRunsNoUpper | src/utils/wordpress/lovableIntegration.ts:48 | The replacement introduces no upper-case letter. |
| LovableIntegration.ReplaceRunsTrailing | src/utils/wordpress/lovableIntegration.ts:48 | A trailing white space run becomes a trailing `-`. |
| LovableIntegration.ReplaceRunsAppend | src/utils/wordpress/lovableIntegration.ts:48 | After a character that is not white space the replacement starts afresh, so it distributes over such a split. |
| LovableIntegration.ReplaceRunsSpaces | src/utils/wordpress/lovableIntegration.ts:48 | A whole white-space run yields one `-` outside a run and nothing inside one. |
| LovableIntegration.ReplaceRunsCollapse | src/utils/wordpress/lovableIntegration.ts:48 | A white-space run of any length between non-space neighbours becomes exactly one `-`. |
| LovableIntegration.Slug | src/utils/wordpress/lovableIntegration.ts:48 | The slug contains no white space. |
| LovableIntegration.SlugLeadingSpace | src/utils/wordpress/lovableIntegration.ts:48 | The slug is not trimmed: leading white space becomes a leading `-`. |
| LovableIntegration.SlugTrailingSpace | src/utils/wordpress/lovableIntegration.ts:48 | Trailing white space becomes a trailing `-`. |
| LovableIntegration.SlugOfSpaceless | src/utils/wordpress/lovableIntegration.ts:48 | A title without white space only changes case. |
| LovableIntegration.SlugIdempotent | src/utils/wordpress/lovableIntegration.ts:48 | Slugging a slug changes nothing. |
| LovableIntegration.SlugCollapse | src/utils/wordpress/lovableIntegration.ts:48 | In the slug, each white-space run between two words of the title becomes one `-`, and the words are slugged on their own. |
| LovableIntegration.CreateDesignProject | src/utils/wordpress/lovableIntegration.ts:36-63 | The call succeeds exactly when nothing is thrown, with the URL `https://lovable.dev/projects/wordpress-<slug>` and no message. When something is thrown, the data is empty and the message is the error's message, or "Ukjent feil" for a value that is not an `Error`. |
| LovableIntegration.ComponentTemplateTrimmed | src/utils/wordpress/lovableIntegration.ts:73-92 | `trim` removes exactly the template's surrounding white space. |
| LovableIntegration.ComponentTemplateLayout | src/utils/wordpress/lovableIntegration.ts:73-92 | The code is trimmed, declares `const <name> = () => {` and ends with `export default <name>;`. |
| LovableIntegration.GenerateComponent | src/utils/wordpress/lovableIntegration.ts:65-110 | The call succeeds exactly when nothing is thrown, with the mock component for the requested name. When something is thrown, the data is empty and the message is the error's message, or "Ukjent feil". |
| LovableIntegration.GetLivePreview | src/utils/wordpress/lovableIntegration.ts:112-135 | The call succeeds exactly when nothing is thrown, with the fixed preview URL. When something is thrown, the data is empty and the message is the error's message, or "Ukjent feil". |
| LovableIntegration.LivePreviewIgnoresSpec | src/utils/wordpress/lovableIntegration.ts:112-125 | The preview does not depend on the design specification. |
| WordPressConversionDashboard.ReplaceNamed | src/components/wordpress/WordPressConversionDashboard.tsx:29 | The replacement keeps the length and replaces exactly the entries bearing the component's name. |
| WordPressConversionDashboard.UpsertShape | src/components/wordpress/WordPressConversionDashboard.tsx:27-31 | A known name keeps the length and replaces every entry of that name; an unknown name is appended at the end. |
| WordPressConversionDashboard.ReplaceNamedKeepsOthers | src/components/wordpress/WordPressConversionDashboard.tsx:29 | Entries with other names are unchanged and keep their order. |
| WordPressConversionDashboard.UpsertKeepsOthers | src/components/wordpress/WordPressConversionDashboard.tsx:28-30 | After an upsert, entries with other names are unchanged and keep their order. |
| WordPressConversionDashboard.UpsertKeepsNamesUnique | src/components/wordpress/WordPressConversionDashboard.tsx:27-31 | Unique names stay unique, and the component appears exactly once. |
| WordPressConversionDashboard.UpsertIdempotent | src/components/wordpress/WordPressConversionDashboard.tsx:27-31 | Upserting the same component twice equals upserting it once. |
| WordPressConversionDashboard.ConversionDashboard.constructor | src/components/wordpress/WordPressConversionDashboard.tsx:16 | No component has been generated yet. |
| WordPressConversionDashboard.ConversionDashboard.HandleComponentGenerated | src/components/wordpress/WordPressConversionDashboard.tsx:26-32 | The state becomes the upsert of the component into the previous list. |
| ConversionWorkflow.Statuses | src/components/wordpress/ConversionWorkflow.tsx:26-62 | There are five steps. Step i is active exactly when i is the current step, completed exactly when before it, and pending exactly when after it. |
| ConversionWorkflow.ExactlyOneActive | src/components/wordpress/ConversionWorkflow.tsx:32-60 | With the cursor in range, exactly one step is active. |
| ConversionWorkflow.Workflow.constructor | src/components/wordpress/ConversionWorkflow.tsx:23-24 | The workflow starts at step 0 with progress 0. |
| ConversionWorkflow.Workflow.HandleNextStep | src/components/wordpress/ConversionWorkflow.tsx:64-69 | The cursor advances exactly when it is before the last step, and the progress becomes 25 times the new step. Otherwise nothing changes. The cursor stays within 0 to 4. |
| ConversionWorkflow.Workflow.HandlePreviousStep | src/components/wordpress/ConversionWorkflow.tsx:71-76 | The cursor moves back exactly when it is past the first step, and the progress becomes 25 times the new step. Otherwise nothing changes. |
| ConversionWorkflow.Workflow.HandleStepClick | src/components/wordpress/ConversionWorkflow.tsx:105 | A click moves the cursor to the clicked step and leaves the progress as it was. |
| ConversionWorkflow.ProgressCanDisagree | src/components/wordpress/ConversionWorkflow.tsx:67-105 | A click can leave the progress out of step with the cursor, for example step 3 with progress 0. |
| ProgressTracker.CurrentIndex | src/components/common/ProgressTracker.tsx:22 | The current index is the first position of the current id, or -1 exactly when no step has it. |
| ProgressTracker.Progress | src/components/common/ProgressTracker.tsx:23 | The progress is NaN exactly for an empty step list, and otherwise lies between 0 and 100. |
| ProgressTracker.UnknownStep | src/components/common/ProgressTracker.tsx:22-33 | An unknown current step gives progress 0 and no completed step. |
| ProgressTracker.LastStepFull | src/components/common/ProgressTracker.tsx:23 | With the current step first found at the last position, the progress is 100. |
| ProgressTracker.ActiveNotCompleted | src/components/common/ProgressTracker.tsx:31-33 | An active step is never also completed, even with duplicate ids. |
| ProgressTracker.CompletedIff | src/components/common/ProgressTracker.tsx:32-33 | With unique ids, a step is completed exactly when it comes before the current index. |
| ProgressTracker.AtMostOneActive | src/components/common/ProgressTracker.tsx:31 | With unique ids, at most one step is active. |
| ProgressTracker.DotColor | src/components/common/ProgressTracker.tsx:44-50 | The dot is `bg-primary` exactly for the active step, `bg-primary/50` exactly for a completed step that is not active, and `bg-muted` exactly for a step that is neither. |
| ProgressTracker.PendingDot | src/components/common/ProgressTracker.tsx:44-50 | The muted dot shows exactly for a step that is neither active nor completed. |
| LayoutSection.DefaultWellFormed | src/components/wordpress/DesignSpecification.tsx:40-45 | The default component list has no duplicate and no empty name. |
| LayoutSection.AddKeepsWellFormed | src/components/wordpress/design/LayoutSection.tsx:27-28 | An accepted name appended to a well-formed list keeps it well formed. |
| LayoutSection.RemoveProperties | src/components/wordpress/DesignSpecification.tsx:259 | Removal leaves no entry of the name, keeps every other name, and keeps the list well formed. |
| LayoutSection.ComponentList.constructor | src/components/wordpress/DesignSpecification.tsx:40-45 | The parent's list starts as the four default components and is well formed. |
| LayoutSection.ComponentList.OnAddComponent | src/components/wordpress/DesignSpecification.tsx:258 | The parent appends the name at the end. |
| LayoutSection.ComponentList.OnRemoveComponent | src/components/wordpress/DesignSpecification.tsx:259 | The parent filters out every entry of the name. |
| LayoutSection.Section.constructor | src/components/wordpress/design/LayoutSection.tsx:24 | The input starts empty. |
| LayoutSection.Section.OnInputChange | src/components/wordpress/design/LayoutSection.tsx:135 | The input holds the typed text. |
| LayoutSection.Section.HandleAddComponent | src/components/wordpress/design/LayoutSection.tsx:26-31 | A non-empty, unlisted name is added once and the input is cleared. Otherwise neither the list nor the input changes. A well-formed list stays well formed. |
| ThemeFilesSection.ThemeFileList.OnFileChange | src/components/wordpress/github/ThemeFilesSection.tsx:26 | The parent's list becomes the list it is handed. |
| ThemeFilesSection.NewFileContent | src/components/wordpress/github/ThemeFilesSection.tsx:25 | A new file's content is the typed content, or " " when that is empty. It is never empty. |
| ThemeFilesSection.Section.constructor | src/components/wordpress/github/ThemeFilesSection.tsx:19-21 | The section starts with the first file selected and both new-file fields empty. |
| ThemeFilesSection.Section.SelectFile | src/components/wordpress/github/ThemeFilesSection.tsx:49 | A click selects that file. |
| ThemeFilesSection.Section.OnPathInput | src/components/wordpress/github/ThemeFilesSection.tsx:60 | The path input holds the typed text. |
| ThemeFilesSection.Section.HandleAddFile | src/components/wordpress/github/ThemeFilesSection.tsx:23-30 | An empty path changes nothing. Otherwise the parent receives its files followed by one fresh record with the path and content, both fields are cleared, and the selection stays. Since nothing else sets the content field, each added file gets the content " ". |
| ThemeFilesSection.Section.HandleUpdateFileContent | src/components/wordpress/github/ThemeFilesSection.tsx:32-80 | An edit writes the content into the selected record in place, a record the parent shares, and the editor then shows that content. Every path and every other record stays, and the parent keeps the same records. A selection past the end throws, changes nothing, and leaves the editor showing the "Filinnhold" header and no text. |

## Left out

- The Babel parser and `@babel/traverse` are foreign libraries. Parsing is a parameter that returns the program body or nothing. Node kinds the visitors ignore collapse into one `Other` node with children, and import specifiers are not modelled.
- Traversal failures other than parsing cannot be modelled: on a syntax tree the visitors never throw.
- Local storage, JSON, `uuid` and the clock are abstracted:
  - the keyed store is a map from key to a stored value;
  - the fresh id and the current time are parameters.
- A stored value of the wrong JSON shape reads as the default. The source would hand it on unchecked.
- A `setItem` that fails, for example on a full quota, is not modelled.
- `window.confirm` is a boolean argument.
- Toasts, console logging and the simulated delays are not modelled.
- React's state setters are direct field assignments, and rendering is not modelled.
- The storage keys are fixed strings.
- The network clients are not modelled: the API client with its retries and timers, the GitHub integration, the AI mock and the Lovable API wrapper.
- Floating point is not modelled:
  - the step tracker's progress is a real number, or NaN for an empty list;
  - the workflow's progress is an exact integer.
- Only ASCII case and ASCII white space are modelled for `toLowerCase` and `\s`, not Unicode.
- Strings are sequences of Unicode characters, not UTF-16 code units. JavaScript's `length` and `substring` positions agree with the model's only for text without characters outside the Basic Multilingual Plane (above U+FFFF); for other keys the mask of ApiKeysTable.MaskedKey, and the 13-character length of ApiKeysTable.MaskedLongKey, count characters where the source counts code units.
- The admin API-key page and the GitHub integration page repeat the logic of the hooks, the key table and the theme-file editor. They are not modelled again.
- The authentication context is a thin wrapper around login and logout and is not modelled.
- A `Partial` update is a record of optional fields. A field explicitly set to `undefined` is not distinguished from an absent one.
- ThemeConverter.ConvertReactToWordPress: the catch branch, which would rethrow "Kunne ikke konvertere komponenten", is unreachable. The template assembly cannot throw, so the contract states that the call always succeeds.
- The Lovable client's configuration is never read, and the design specification is only passed along, so both are left abstract.
- The data objects of the Lovable responses are reduced to their one string field.
- The conversion dashboard's `handleAnalysisComplete` and `handleDesignSpecChange` are plain state setters and are not modelled.
- The key table's creation date column is a locale-formatted date and is not modelled.
- The workflow's per-step `status` (ConversionWorkflow.tsx:32-60) is modelled by ConversionWorkflow.Statuses; it is read only to pick the step card's and icon's class names (ConversionWorkflow.tsx:101-110), which are rendering and are not modelled.
- The step tracker's `ProgressStep.status` (ProgressTracker.tsx:8) is carried and never read.
- The layout section's visualisation markup is not modelled.
- ThemeFilesSection.ThemeFileList.OnFileChange: the parent's callback is modelled only as replacing the list; the parent's other state is not modelled.
- ProgressTracker.DotColor: returns one class where `cn` would join two for a step both active and completed; ActiveNotCompleted shows no step is both.
