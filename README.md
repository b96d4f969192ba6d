# Request paths of Her models

A Dafny model of `lib/her/model/paths.rb`: how a Her resource type builds the
URL path it sends a request to. The model has four parts:

- **Configuration.** Each type keeps a path prefix, a collection path and a
  resource path. Each of these is read or set through its own accessor. An unset
  value is inherited from the superclass and memoised on the first read.
- **Selection.** `build_request_path` chooses the resource path when the
  parameters carry a non-nil `:id`, and the collection path otherwise.
- **Join and hook.** The chosen template is joined behind the prefix with
  `File.join`, and the optional `request_path_parameters` hook is merged
  underneath the caller's parameters.
- **Substitution.** Each `:name` placeholder is replaced, left to right, by the
  value deleted from the parameters under `name`, or failing that under
  `_name`. When neither key gives a value, the build raises `PathError`.

Modules:

- `Wrappers`: `Option` and `Result`.
- `Template`: the placeholder syntax `/:([\w_]+)/`.
  - A template is scanned into literal characters and placeholder tokens.
  - The scan spells the template back, and every token is maximal.
- `Substitution`: the `gsub` loop of lines 87-90.
  - `Substitute` is an imperative loop that consumes a mutable map.
  - It is proved equal to the recursive specification `Substituted`.
  - The lemmas state what that specification promises: literal templates are
    unchanged, a missing key fails, extra keys are ignored, placeholders are
    filled independently, and what a repeated placeholder yields.
- `Paths`: `File.join`, template selection, the hook merge, and the class
  `TypeConfig`.
  - `TypeConfig` holds one type's three fields and a link to its superclass.
  - Its methods are the three accessors, `build_request_path` and the instance
    method `request_path`.
  - The accessors are specified against ghost functions that resolve a value
    through the superclass chain.
- `Scenarios`: concrete configurations with the paths they produce. They are
  proved only from the contracts in `Paths` and `Substitution`.

A parameter value is `Nil`, `False` or `Text(s)`. The distinction matters
because selection tests `:id` for being non-nil, so `false` still selects the
resource path. Substitution tests truthiness instead, so both `nil` and `false`
fall through to `_name`.

Where the library's documented behaviour and the code differ, the model follows
the code:

- `path_prefix` inherits the superclass's **collection** path (line 29), not its
  prefix. A subclass of a type with collection path `/users` therefore builds
  `/users/users` (`Scenarios.SubclassTemplate`).
- A `nil` value is not memoised: `||=` looks it up again on every read.
- `collection_path(p)` always overwrites the resource path with `p + "/:id"`.
- When `"/"` starts the path, `File.join` drops every trailing separator of the
  prefix. Otherwise it inserts at most one separator. So a doubled separator
  that either side brings to the junction survives (`Paths.JoinEdgeCases`).
- An empty prefix is still joined, because `""` is truthy in Ruby. It starts
  the result with `/`.
- Selection looks only at the caller's parameters, before the hook is merged.
- A placeholder that occurs twice consumes `name` on its first occurrence. The
  second occurrence therefore needs `_name`.
- The error message spells the parameter as `:_name`.

## Model

| member | source | states |
|---|---|---|
| Template.Pieces | lib/her/model/paths.rb:87 | the scan of `gsub(/:([\w_]+)/)`: from the left, a `:` followed by a word character starts a token that takes the longest run of word characters; every other character is copied as a literal |
| Template.WordPrefix | lib/her/model/paths.rb:87 | the name of a placeholder is the longest run of word characters (`\w`, ASCII) after the colon |
| Template.UnparsePieces | lib/her/model/paths.rb:87 | scanning a template loses nothing: the literal characters and `:name` tokens spell it back exactly |
| Template.PiecesWellFormed | lib/her/model/paths.rb:87 | every token the scan finds has a non-empty name of word characters, and no word character directly follows it; no literal `:` is followed by a literal word character, so every `:` plus word character is matched |
| Template.ScanIsUnique | lib/her/model/paths.rb:87 | a well-formed sequence of pieces that spells the template is the scan itself, so the scan is the leftmost, longest matching |
| Template.NoTokensIffAllLiteral | lib/her/model/paths.rb:87 | a template has no colon followed by a word character exactly when its scan has no token |
| Template.PiecesOfPlainText | lib/her/model/paths.rb:87 | colon-free text is scanned as literal characters, and the scan continues unchanged behind it |
| Template.PiecesOfColonFree | lib/her/model/paths.rb:87 | colon-free text is scanned as its own characters only |
| Template.WordPrefixStops | lib/her/model/paths.rb:87 | the greedy match stops exactly at the first non-word character |
| Template.PiecesOfPlaceholder | lib/her/model/paths.rb:87 | `:name` followed by a non-word character is scanned as the single token `name` |
| Substitution.Take | lib/her/model/paths.rb:89 | `delete(name) \|\| delete("_name")`: `name` is always deleted; `_name` is deleted only when `name` gave nil, false or nothing; a value comes back exactly when one of the keys holds a truthy value, with `name` preferred; no other key is touched |
| Substitution.Delete | lib/her/model/paths.rb:89 | the two in-place deletes yield exactly the value and the remaining map that `Take` describes |
| Substitution.Expand | lib/her/model/paths.rb:87-90 | substitution only deletes keys; a key that no placeholder refers to survives; a failure carries the template and the name of one of its placeholders |
| Substitution.Substituted | lib/her/model/paths.rb:87-90 | the reference substitution: the template's scan expanded left to right over the map, giving the path or the first `PathError` and the map after the deletes |
| Substitution.Substitute | lib/her/model/paths.rb:87-90 | the left-to-right loop over the template, deleting from the map in place, returns the path or error and the map that the reference `Substituted` gives |
| Substitution.Message | lib/her/model/paths.rb:89 | the text raised: `Missing :_name parameter to build the request path (template).` |
| Substitution.MessageMentionsNameAndTemplate | lib/her/model/paths.rb:89 | the `PathError` message contains the missing name and the whole template |
| Substitution.ExpandLiterals | lib/her/model/paths.rb:87-90 | a scan without tokens is copied as it is, with the map unchanged |
| Substitution.LiteralTemplateUnchanged | lib/her/model/paths.rb:87-90 | a template without placeholders comes back unchanged for every parameter map; nothing is consumed and nothing is raised |
| Substitution.MissingParameterFails | lib/her/model/paths.rb:89 | if some placeholder can be filled from neither `name` nor `_name`, the whole build fails and no partial path is returned |
| Substitution.NoParametersNeededIff | lib/her/model/paths.rb:87-90 | a build with an empty map succeeds exactly when the template has no placeholder |
| Substitution.TakeIgnoresExtra | lib/her/model/paths.rb:89 | keys other than `name` and `_name` change neither the value taken nor which keys are deleted |
| Substitution.ExtraParametersIgnored | lib/her/model/paths.rb:87-90 | parameters that no placeholder refers to leave the path or error unchanged, and all of them are still in the map afterwards |
| Substitution.Consumed | lib/her/model/paths.rb:89 | the keys a scan consumes include every placeholder name and only keys the placeholders refer to |
| Substitution.IndependentPlaceholdersConsume | lib/her/model/paths.rb:87-90 | when no two placeholders share a key and each can be filled, the map left over is the original without `name` for each placeholder, and without `_name` too where `name` gave nothing; no placeholder name survives |
| Substitution.IndependentPlaceholdersFill | lib/her/model/paths.rb:87-90 | when no two placeholders share a key and each can be filled, the path is the template with every `:name` replaced by the value under `name`, or under `_name` when `name` is missing, nil or false |
| Substitution.RepeatedPlaceholder | lib/her/model/paths.rb:89 | `:name … :name` succeeds exactly when both `name` and `_name` hold values; the first occurrence receives `name` and the second `_name` |
| Substitution.ExpandSeparator | lib/her/model/paths.rb:87-90 | literal text between tokens is copied and consumes nothing |
| Substitution.PiecesOfSinglePlaceholder | lib/her/model/paths.rb:87 | `lit:name after`, where `lit` and `after` hold no colon, is scanned as `lit`, one token and `after` |
| Substitution.SinglePlaceholder | lib/her/model/paths.rb:87-90 | a one-placeholder template yields `lit + value + after` with the consumed key removed, or, when no value is available, the `PathError` for that name and template |
| Paths.ChompSlashes | lib/her/model/paths.rb:82 | the prefix loses exactly its trailing separators and nothing else |
| Paths.Join | lib/her/model/paths.rb:82 | `File.join(prefix, path)` with `/` as separator: a path starting with `/` goes behind the prefix less its trailing separators; otherwise a `/` is inserted unless the prefix already ends with one |
| Paths.JoinKeepsBoth | lib/her/model/paths.rb:82 | the join starts with the prefix less its trailing separators, ends with the whole path, and adds at most one separator |
| Paths.JoinSingleSeparator | lib/her/model/paths.rb:82 | when neither side brings a doubled separator to the junction, the join is the prefix without its trailing `/`, one `/`, and the path without its leading `/` |
| Paths.JoinEdgeCases | lib/her/model/paths.rb:82 | a doubled separator at the junction survives the join, and an empty prefix still gives a leading `/` |
| Paths.AddressesOne | lib/her/model/paths.rb:81 | the condition `parameters.include?(:id) && !parameters[:id].nil?`: the key is present and its value is not nil (`false` counts) |
| Paths.Select | lib/her/model/paths.rb:81 | the resource path when the parameters address one resource, the collection path otherwise |
| Paths.RequestTemplate | lib/her/model/paths.rb:79-83 | with `:id` present and non-nil the result is the resource path, otherwise the collection path; with a prefix the chosen path is `File.join(prefix, chosen)`, and the result is undefined when the chosen path is |
| Paths.Merge | lib/her/model/paths.rb:85 | `hook.merge(params)`: every given key keeps its value, hook keys fill in the rest, and no other key appears |
| Paths.TypeConfig.constructor | lib/her/model/paths.rb:29 | a new type below an optional superclass starts with nothing configured |
| Paths.TypeConfig.ResolvedCollection | lib/her/model/paths.rb:44-45 | what `collection_path` returns: the type's own value when set, else the superclass's resolved collection path, else nil |
| Paths.TypeConfig.ResolvedResource | lib/her/model/paths.rb:61-62 | what `resource_path` returns: the type's own value when set, else the superclass's resolved resource path, else nil |
| Paths.TypeConfig.ResolvedPrefix | lib/her/model/paths.rb:28-29 | what `path_prefix` returns: the type's own prefix when set, else the superclass's resolved COLLECTION path, else nil |
| Paths.TypeConfig.InheritCollection | lib/her/model/paths.rb:44-46 | a read of the collection path returns the value resolved through the superclass chain; every type up to the first one holding a value memoises that value; no other field changes |
| Paths.TypeConfig.CollectionPath | lib/her/model/paths.rb:43-51 | the getter returns and memoises the inherited collection path; the setter stores the path, overwrites the resource path with `path + "/:id"`, and leaves the prefix alone |
| Paths.TypeConfig.InheritResource | lib/her/model/paths.rb:61-63 | a read of the resource path returns the value resolved through the superclass chain; every type up to the first one holding a value memoises that value; no other field changes |
| Paths.TypeConfig.ResourcePath | lib/her/model/paths.rb:60-67 | the getter returns and memoises the inherited resource path; the setter stores only the resource path |
| Paths.TypeConfig.PathPrefix | lib/her/model/paths.rb:27-34 | the getter returns and memoises the superclass's resolved collection path when no own prefix is set; the setter stores only the prefix |
| Paths.TypeConfig.DefaultTemplate | lib/her/model/paths.rb:79-83 | with no explicit template, the accessors read the template that `RequestTemplate` selects for the configuration before the call; the types on the chain of the path read (resource or collection), the superclasses the prefix read consults, and this type's prefix end up holding the values they resolved to; every other resource and collection path, including this type's unread one, keeps its value, and no superclass's prefix changes |
| Paths.TypeConfig.PrefixTemplate | lib/her/model/paths.rb:82 | joins the path behind the prefix the type resolves to, when there is one; the prefix and the superclasses' collection paths it consults are memoised, and no other collection path changes |
| Paths.TypeConfig.BuildRequestPath | lib/her/model/paths.rb:78-91 | gives the path or error of substituting the explicit template (or the selected and joined one) with the hook merged underneath; without a hook the caller's map is consumed in place, with one it stays intact; an explicit template changes no configuration; without one, the fields `DefaultTemplate` names are cached and all others keep their values |
| Paths.TypeConfig.RequestPath | lib/her/model/paths.rb:14-17 | builds from the instance hook's parameters with the instance data merged over them, so the data wins; caches and keeps fields as a build without a template does |
| Scenarios.SetterOrder | lib/her/model/paths.rb:43-67 | `collection_path` after `resource_path` resets the resource path to `/users/:id`; `resource_path` after `collection_path` keeps its own value |
| Scenarios.Inheritance | lib/her/model/paths.rb:27-67 | a subclass reads the superclass's collection and resource paths, and its prefix is the superclass's collection path |
| Scenarios.MemoisedInheritance | lib/her/model/paths.rb:44-48 | a value a subclass has read is kept after the superclass changes |
| Scenarios.FollowedInheritance | lib/her/model/paths.rb:44-48 | a value a subclass has not read yet follows a change of the superclass |
| Scenarios.UsersUnderUsers | lib/her/model/paths.rb:82 | `File.join("/users", "/users")` is `/users/users` |
| Scenarios.UsersUsersLiteral | lib/her/model/paths.rb:87-90 | `/users/users` has no placeholder and comes back unchanged |
| Scenarios.SubclassTemplate | lib/her/model/paths.rb:29 | a subclass of a type with collection path `/users` builds `/users/users`, because its prefix is the superclass's collection path |
| Scenarios.BuildCaches | lib/her/model/paths.rb:81 | a build reads, and so memoises, the collection path: the subclass keeps `/users` after the superclass changes to `/people` |
| Scenarios.FollowedAfterBuild | lib/her/model/paths.rb:81 | a build with an `id` reads only the resource path and the prefix, so the subclass's unread collection path still follows the superclass to `/people` |
| Scenarios.ResourceFollowedAfterBuild | lib/her/model/paths.rb:81 | a build without an `id` reads no resource path, so the subclass's unread resource path still follows the superclass to `/members/:id` |
| Scenarios.MissingParameter | lib/her/model/paths.rb:89 | `/users/:id` with no parameters fails with the error for `id` and that template |
| Scenarios.UnderscorePlaceholder | lib/her/model/paths.rb:89 | `/users/:_id` with `_id = 9` gives `/users/9` |
| Scenarios.ConsumedKeys | lib/her/model/paths.rb:87-89 | without a hook, `id` is deleted from the caller's map and `page` stays |
| Scenarios.CopiedKeys | lib/her/model/paths.rb:85 | with a hook, the caller's map is left intact |
| Scenarios.PrefixedCollection | lib/her/model/paths.rb:79-90 | prefix `/sites/:site_id`, collection `/users` and `site_id = 42` give `/sites/42/users` |
| Scenarios.DataOverridesHook | lib/her/model/paths.rb:14-16 | `request_path` takes `id` from the instance data, not from the instance hook |

## Left out

- `ActiveSupport::Concern`, module inclusion and `respond_to?`:
  - the superclass check becomes an explicit optional `parent`;
  - the two `request_path_parameters` hooks become optional maps passed in.
- How Ruby turns a parameter value into a string: text values are strings already.
- Symbol versus string keys. The map is keyed by the name without the colon.
- `.dup` on the inherited value: strings are values here, so no copy is needed.
  Ruby versions where `nil.dup` raises are not modelled.
- `File.join` with more than two segments, or with non-string arguments.
- `BuildRequestPath`: a `Hash` as the first argument of `build_request_path` is
  `template = None` with that hash as `params`. A `nil` first argument is not
  modelled separately. Line 80 then discards the second argument, so Ruby's
  `build_request_path(nil, p)` is `BuildRequestPath(None, map[], hook)` and
  leaves `p` untouched, not `BuildRequestPath(None, p, hook)`.
- `BuildRequestPath`: it requires that the selected path exists when no template is
  given. Ruby raises a `TypeError` from `File.join` or `gsub` on `nil` there.
- `RequestPath`: the same precondition as `BuildRequestPath`.
- The `Her::Errors::PathError` class hierarchy. The error is a value carrying the
  name and the template, with its message as a function.
- Thread safety of the class-level fields. Ruby does not lock them, and the model
  is sequential.
