# django-base-app core, modelled in Dafny

This project models the logic of the django-base-app repository that is more than framework glue.
It has five parts.

- **The `generate_admin` management command** (`GenerateAdmin`, `AdminPlan`, `AdminRender`).
  - An `AdminModel` walks a model's fields and fills `list_display`, `list_filter`, `raw_id_fields` and `search_fields` in place.
  - It then picks a `date_hierarchy` and builds the `prepopulated_fields` dict.
  - Finally it renders each non-empty property as `key = value` text, wrapped one item per line past 78 columns.
  - `AdminApp` selects the models of an app by pattern and emits the import header, then one admin class per selected model.
- **The request helpers of `common/init_helpers.py`** (`InitHelpers`).
  - These choose the client address from the headers, the user agent and the origin.
  - They also decide whether a request is internal.
- **The logging set-up of `base_django_app/logging_config.py`** (`LoggingConfig`).
  - The level-60 `debugv` gate.
  - The static/media request filter.
  - The record filter that shortens the path name.
  - The coloured header/body formatter and its format-restoring `format`.
  - The handler table.
- **The `get_db_command` PostgreSQL bootstrap script** (`CommonGetDbCommand`, `CustomAuthGetDbCommand`), which exists in two identical copies.
- **The timestamping `save` of `BaseDjangoModel`** (`BaseModels`).

Shared helpers:
- `Wrappers` has Option and Result.
- `Strings` has Python `str` semantics: `split` keeps empty pieces, plus `join`, `strip`, `lower` and code-point `sorted`.
- `Sequences` has filtering and subsequences.

Foreign calls become parameters:
- `re.search` becomes `matches`.
- `ipaddress.ip_address` followed by `str` becomes `parse`, with None where it raises.
- `urlparse(...).netloc` becomes `host`.
- `timezone.now()` becomes clock values.
- `super().save()` becomes the key the database assigns.
- The related-row count of a foreign key becomes a field of the field descriptor.
- The `termcolor` codes become a `Palette`.
- `logging.Formatter.format` becomes its rendered text.

Two facts about the code shape the options and the lists:
- `AdminModel` never calls `get_all_fields` (which can prepend `"__str__"`), so `list_display` never holds `"__str__"`.
- The command passes `no_query_db=False` by default. `AdminModel`'s own default (`NO_QUERY_DB = True`) applies only to direct construction, so the options record carries the flag explicitly.

## Model

| member | source | states |
|---|---|---|
| AdminPlan.ClassifyForeignKey | common/management/commands/generate_admin.py:230-245 | with the count capped at max of the two thresholds: raw id iff count >= raw_id_threshold; list filter iff below both thresholds; never both |
| AdminPlan.FieldLists | common/management/commands/generate_admin.py:247-261 | what one field adds to each of the four lists (display unless parent link; filter by kind and query mode; raw id by foreign-key classification; search by name); never to both filter and raw id |
| AdminPlan.PlanLists | common/management/commands/generate_admin.py:212-261 | the four lists after `_process_field` has run on every field in declaration order; PlanDisplay, PlanFilter, PlanRawId, PlanSearch and ListsWithinDisplay state their contents |
| AdminPlan.PlanDisplay | common/management/commands/generate_admin.py:212-217 | the display list of a field sequence is, in declaration order, the names of the fields each step puts on display |
| AdminPlan.PlanFilter | common/management/commands/generate_admin.py:252-256 | the filter list is, in order, the names of the fields classified into the filter |
| AdminPlan.PlanRawId | common/management/commands/generate_admin.py:253-254 | the raw-id list is, in order, the names of the foreign keys classified as raw id |
| AdminPlan.PlanSearch | common/management/commands/generate_admin.py:258-259 | the search list is, in order, the names of displayed fields whose name is a search field name |
| AdminPlan.DisplayIsNonParentFields | common/management/commands/generate_admin.py:247-251 | list_display is exactly the non-parent-link field names in order; a name is in it iff some non-parent-link field has it |
| AdminPlan.ListsWithinDisplay | common/management/commands/generate_admin.py:251-259 | filter, raw-id and search lists are subsequences of list_display, and search is list_display restricted to the search field names |
| AdminPlan.NoQueryDbFilter | common/management/commands/generate_admin.py:252-256 | without database queries every date/datetime/boolean/foreign-key non-parent field is a filter, no other kind is, and raw_id_fields stays empty |
| AdminPlan.QueryDbPlacement | common/management/commands/generate_admin.py:230-256 | with database queries, raw_id_fields holds exactly the foreign keys at or above the raw-id threshold, and list_filter the non-foreign filter kinds plus the foreign keys below both thresholds |
| AdminPlan.ProcessedNamesMembers | common/management/commands/generate_admin.py:212-217 | a name is collected as a processed field name iff it is non-empty and names a non-parent-link field |
| AdminPlan.LastPresent | common/management/commands/generate_admin.py:324-327 | the reverse search over the date names for the first one that is a field name; LastPresentSpec states its result |
| AdminPlan.LastPresentSpec | common/management/commands/generate_admin.py:324-327 | the reverse search finds the last listed date name that is a field name, or None iff none is |
| AdminPlan.NextDateHierarchy | common/management/commands/generate_admin.py:324-327 | a truthy date_hierarchy is kept; otherwise, when some date name is a field name, the result is the one at a position after which no date name is a field name; nothing changes when none is |
| AdminPlan.DefaultDateHierarchyPrefersModified | common/management/commands/generate_admin.py:65-68 | with the default names, when both "created" and "modified" are fields, "modified" wins |
| AdminPlan.Lookup | common/management/commands/generate_admin.py:340 | looking up a key of the ordered dict: None iff the key is absent, else an entry with that key |
| AdminPlan.Put | common/management/commands/generate_admin.py:340 | `d[k] = v` on the insertion-ordered dict: the dict grows by one entry exactly when k is new; PutSpec states the entries |
| AdminPlan.PutSpec | common/management/commands/generate_admin.py:340 | after `d[k] = v`, k maps to v, every other key maps as before, and a new key is appended at the end while an existing key keeps its position |
| AdminPlan.PutNoDuplicates | common/management/commands/generate_admin.py:340 | assignment keeps the dict free of duplicate keys |
| AdminPlan.ParseSpec | common/management/commands/generate_admin.py:330-331 | a spec fails iff it holds no '='; otherwise the key holds no '=', no value holds ',', and key + "=" + a non-empty list of values joined by "," rebuilds the spec, so the values are exactly the ','-separated pieces |
| AdminPlan.ApplySpecs | common/management/commands/generate_admin.py:329-340 | the `for k in specs` loop over the sorted specs, stopping at the first spec without '='; ApplySpecsMalformed, ApplySpecsSound and LastSpecWins state its outcome |
| AdminPlan.ApplySpecsMalformed | common/management/commands/generate_admin.py:329-331 | the specs fail exactly when some spec holds no '=', and the spec reported is the first such one |
| AdminPlan.ApplySpecsSound | common/management/commands/generate_admin.py:332-340 | every stored entry has a field-name key and only field-name values, and keys stay distinct |
| AdminPlan.LastSpecWins | common/management/commands/generate_admin.py:329-340 | a key ends with the values of its last complete spec in sorted order, or keeps its earlier value when it has none |
| AdminPlan.Processed | common/management/commands/generate_admin.py:321-342 | `_process`: lists from the fields, date_hierarchy from the date names, the dict from the sorted specs, or the malformed spec; ProcessedFresh states the outcome on a fresh model |
| AdminPlan.ProcessedFresh | common/management/commands/generate_admin.py:321-342 | on a fresh model the lists are the per-field contributions, every dict entry is complete with distinct keys, it raises iff some spec has no '=', and date_hierarchy is the last listed date name that is a processed field |
| AdminPlan.SortedSameElements | common/management/commands/generate_admin.py:329 | sorting the specs neither adds nor loses an element |
| AdminPlan.MetaNames | common/management/commands/generate_admin.py:29-41 | one name per kept (not excluded) field, index by index in declaration order; a name is listed iff some kept field has it |
| AdminPlan.GetAllFields | common/management/commands/generate_admin.py:29-44 | "__str__" comes first when asked for; the rest are the meta field names in order, minus the ignored ones |
| AdminPlan.KeptNames | common/management/commands/generate_admin.py:42-43 | a name is kept iff it is listed and not in a non-empty ignore list; the kept names keep their order |
| AdminRender.TupleRows | common/management/commands/generate_admin.py:306-307 | one row per item, in item order, each indented 8 spaces, the item's repr and a trailing comma |
| AdminRender.DictRows | common/management/commands/generate_admin.py:293-294 | one row per dict entry, in insertion order, indented 8 spaces as `'k': [...]` with no trailing comma |
| AdminRender.TupleText | common/management/commands/generate_admin.py:301-312 | what `_yield_tuple` returns; TupleTextLines and OneItemTuple state its layout |
| AdminRender.DictText | common/management/commands/generate_admin.py:288-299 | what `_yield_dict` returns; DictTextLines states its layout |
| AdminRender.ValueText | common/management/commands/generate_admin.py:272-286 | what `_yield_value` returns for a list, a dict or a string; ValueTextHead states its first line |
| AdminRender.TupleTextLines | common/management/commands/generate_admin.py:301-312 | a tuple property within 78 columns is the single line `key = (...)`; a longer one is the `key = (` line, one row per item and a closing `    )` |
| AdminRender.DictTextLines | common/management/commands/generate_admin.py:288-299 | a dict property within 78 columns is the single line `key = {...}`; a longer one is the `key = {` line, one row per entry and a closing `    }` |
| AdminRender.OneItemTuple | common/management/commands/generate_admin.py:303 | a one-item tuple renders with the trailing comma `('x',)` |
| AdminRender.ValueTextHead | common/management/commands/generate_admin.py:97-98 | every rendered property starts with a newline, four spaces and `key = ` |
| AdminRender.Emitted | common/management/commands/generate_admin.py:316-319 | the class body `_unicode_generator` yields: the truthy attributes rendered one after the other; EmittedInOrder and NothingTruthyEmitsNothing state it |
| AdminRender.EmittedInOrder | common/management/commands/generate_admin.py:314-319 | the output is the renderings of the truthy properties, in PRINTABLE_PROPERTIES order |
| AdminRender.NothingTruthyEmitsNothing | common/management/commands/generate_admin.py:316-319 | when no property is truthy the class body is empty |
| GenerateAdmin.AdminModel.constructor | common/management/commands/generate_admin.py:167-192 | a new admin model keeps its model and options and has four empty lists, an empty dict, no date hierarchy and is not processed |
| GenerateAdmin.AdminModel.ProcessForeignKey | common/management/commands/generate_admin.py:230-245 | appends the field to raw_id_fields or list_filter as the capped count classifies it, changing nothing else |
| GenerateAdmin.AdminModel.ProcessField | common/management/commands/generate_admin.py:247-261 | the lists grow by exactly what the field contributes; the name is returned iff the field is not a parent link |
| GenerateAdmin.AdminModel.ProcessFields | common/management/commands/generate_admin.py:212-217 | the lists grow by the contributions of all fields in order; the names returned are the truthy non-parent names |
| GenerateAdmin.AdminModel.ChooseDateHierarchy | common/management/commands/generate_admin.py:324-327 | the reverse loop with break sets date_hierarchy as the next-date-hierarchy rule says |
| GenerateAdmin.AnyMissing | common/management/commands/generate_admin.py:333-337 | the inner loop reports incomplete iff some value is not a field name |
| GenerateAdmin.AdminModel.PrepopulateOne | common/management/commands/generate_admin.py:330-340 | one spec: fails and changes nothing iff it holds no '='; otherwise the entry is written exactly when the key and every source are processed field names |
| GenerateAdmin.AdminModel.Prepopulate | common/management/commands/generate_admin.py:329-340 | the loop over sorted specs leaves the dict and the failing spec equal to applying the specs one by one |
| GenerateAdmin.AdminModel.Process | common/management/commands/generate_admin.py:321-342 | the new plan is the processed plan of the old one; a malformed spec is reported, and processed is set only on success |
| GenerateAdmin.AdminModel.YieldTuple | common/management/commands/generate_admin.py:301-312 | the loop builds the tuple rendering whose line shape TupleTextLines states |
| GenerateAdmin.AdminModel.YieldDict | common/management/commands/generate_admin.py:288-299 | the loop builds the dict rendering whose line shape DictTextLines states |
| GenerateAdmin.AdminModel.YieldValue | common/management/commands/generate_admin.py:272-286 | dispatches lists to the tuple form, the dict to the dict form and strings to the single line |
| GenerateAdmin.AdminModel.Render | common/management/commands/generate_admin.py:316-319 | concatenates the renderings of this admin model's truthy properties in PRINTABLE_PROPERTIES order |
| GenerateAdmin.AdminModel.Text | common/management/commands/generate_admin.py:269-270 | processes the model and returns the class body, or the ValueError of a malformed spec |
| GenerateAdmin.LastPresentAt | common/management/commands/generate_admin.py:324-327 | a present name with no present name after it is the one the reverse search finds |
| GenerateAdmin.ModelText | common/management/commands/generate_admin.py:269-270 | `str(AdminModel(model, **options))` on a fresh model: the rendered attributes of its processed plan, or ValueError |
| GenerateAdmin.ClassBlocks | common/management/commands/generate_admin.py:143-147 | one PRINT_ADMIN_CLASS block per model in order, or the first error; ClassBlocksOk and ClassBlocksErr state it |
| GenerateAdmin.ClassBlocksOk | common/management/commands/generate_admin.py:143-147 | the admin classes render iff every selected model renders |
| GenerateAdmin.ClassBlocksErr | common/management/commands/generate_admin.py:143-147 | the first model that fails decides the error of the whole output |
| GenerateAdmin.Selected | common/management/commands/generate_admin.py:115-126 | the models `__iter__` yields; SelectedModels states which and in what order |
| GenerateAdmin.SelectedModels | common/management/commands/generate_admin.py:115-126 | the selected models are a subsequence of the app's models (order kept, each at most once); a model is selected iff there are no patterns or one matches its name |
| GenerateAdmin.AppText | common/management/commands/generate_admin.py:137-148 | PRINT_IMPORTS followed by the class blocks of the selected models, or the first error; AdminApp.Unicode is proved equal to it |
| GenerateAdmin.AdminApp.constructor | common/management/commands/generate_admin.py:110-113 | stores the app's models, the patterns and the options |
| GenerateAdmin.AdminApp.Iter | common/management/commands/generate_admin.py:115-126 | the loop with break/else/continue yields exactly the selected models |
| GenerateAdmin.AdminApp.Unicode | common/management/commands/generate_admin.py:137-148 | the output is the import header followed by one class block per selected model, or the first model's error |
| InitHelpers.RawAddress | common/init_helpers.py:10-14 | a non-empty forwarded-for header gives its text up to the first comma; otherwise REMOTE_ADDR, or "" |
| InitHelpers.ForwardedForWins | common/init_helpers.py:10-12 | with a non-empty forwarded-for header, REMOTE_ADDR has no influence |
| InitHelpers.Candidates | common/init_helpers.py:22 | two candidates: the text after the leading '['s up to the first ']', then the text up to the first ':' |
| InitHelpers.PlainAddressCandidates | common/init_helpers.py:22 | an address without brackets or colons is both candidates |
| InitHelpers.FirstValid | common/init_helpers.py:24-26 | the first candidate that parses, in normal form; None iff none parses |
| InitHelpers.FirstOfTwo | common/init_helpers.py:24-26 | of two candidates, the first wins whenever it parses, and the second is used only otherwise |
| InitHelpers.Resolve | common/init_helpers.py:22-27 | the normal form of the first candidate if it parses, else of the second, else the raw address unchanged; defined for every input |
| InitHelpers.GetIpAddress | common/init_helpers.py:6-27 | `_get_ip_address`: Resolve applied to RawAddress, so it always returns; the rows of those two state its value |
| InitHelpers.UserAgent | common/init_helpers.py:30-32 | the user-agent header verbatim, or "NA" when absent |
| InitHelpers.RequestOrigin | common/init_helpers.py:35-37 | the origin header, or None exactly when absent |
| InitHelpers.IsRequestFromPrivateOrigin | common/init_helpers.py:40-48 | true for staff; otherwise true iff an origin is sent and its host is a private origin |
| InitHelpers.IsInternalIp | common/init_helpers.py:51-59 | true for staff; otherwise true iff the client address is an internal ip |
| InitHelpers.StaffIgnoresHeaders | common/init_helpers.py:44-45 | for a staff user both checks answer the same whatever the headers |
| LoggingConfig.EnabledUpward | base_django_app/logging_config.py:43 | a logger enabled for a level is enabled for every higher level |
| LoggingConfig.DebugVAboveCritical | base_django_app/logging_config.py:35 | level 60 lies above CRITICAL, so a logger that lets CRITICAL through lets debugv through |
| LoggingConfig.CustomLogger.constructor | base_django_app/logging_config.py:37-40 | a new logger has its own level as effective level unless that is NOTSET, in which case the inherited level; it takes the global disable level as given, is not disabled and has emitted nothing |
| LoggingConfig.CustomLogger.DebugV | base_django_app/logging_config.py:42-44 | a record at level 60 is emitted iff the logger is enabled for 60, and the logger's settings do not change |
| LoggingConfig.SkipStaticOrMediaRequests | base_django_app/logging_config.py:50-54 | false iff the message contains "GET /static", "GET /media" or "GET /prod_static" |
| LoggingConfig.StaticRequestDropped | base_django_app/logging_config.py:52-53 | a message holding a static request is always dropped |
| LoggingConfig.ShortFilename | base_django_app/logging_config.py:59-64 | always a suffix of the path; the path itself under three parts, else its last three '/'-parts |
| LoggingConfig.AppFilter.constructor | base_django_app/logging_config.py:57 | the filter keeps the callback it is configured with |
| LoggingConfig.AppFilter.Filter | base_django_app/logging_config.py:58-65 | sets short_filename from the path, leaves the rest of the record alone, and returns the callback's verdict as 1/0 |
| LoggingConfig.ConfiguredFilter | base_django_app/logging_config.py:168-172 | the configured app_filter sets short_filename and keeps a record iff it is not a static or media request |
| LoggingConfig.MessageSuffix | base_django_app/logging_config.py:139 | the suffix is the reset code |
| LoggingConfig.MessagePrefix | base_django_app/logging_config.py:135-138 | the level's colour codes looked up lower-cased, OKBLUE when absent, joined, stripped, then BOLD; UnknownLevelIsBlue and InfoIsGreen state both branches |
| LoggingConfig.GetFormatted | base_django_app/logging_config.py:131-141 | fails iff the message holds no '#'; else splits at the first '#' and wraps the header in HEADER/ENDC and the body in the level prefix and ENDC |
| LoggingConfig.FormattedParts | base_django_app/logging_config.py:131-141 | for a header without '#', the body keeps every later '#', and the output is assembled from exactly those parts |
| LoggingConfig.UnknownLevelIsBlue | base_django_app/logging_config.py:135-138 | a level without a colour entry gets the stripped OKBLUE prefix followed by BOLD |
| LoggingConfig.InfoIsGreen | base_django_app/logging_config.py:113-124 | "INFO" is looked up lower-cased and gets the green prefix followed by BOLD |
| LoggingConfig.CustomFormatter.constructor | base_django_app/logging_config.py:127-129 | a formatter keeps its format template and palette |
| LoggingConfig.CustomFormatter.Format | base_django_app/logging_config.py:143-158 | the format template is the same after the call as before, and the result is the coloured form of the rendered record |
| LoggingConfig.Handlers | base_django_app/logging_config.py:189-213 | three handlers, all with the custom formatter and app_filter; the two rotating file handlers log to the configured files at INFO with 10 backups and 15 MiB |
| CommonGetDbCommand.ScriptIsJoinedStatements | common/management/commands/get_db_command.py:11-21 | the script is the seven statements joined by newlines, with no trailing newline |
| CommonGetDbCommand.GetCommand | common/management/commands/get_db_command.py:11-21 | `get_command(db, user, password)`: the seven appended statements; ScriptLines and ParseGetCommand state its lines and its round trip |
| CommonGetDbCommand.StatementsSingleLine | common/management/commands/get_db_command.py:13-19 | no statement holds a line break when the inputs hold none |
| CommonGetDbCommand.StatementsTerminated | common/management/commands/get_db_command.py:13-19 | every statement ends with ';' |
| CommonGetDbCommand.ScriptLines | common/management/commands/get_db_command.py:12-19 | split at newlines, the script is exactly seven lines: create database, create user with the password verbatim in quotes, the three ALTER ROLE settings in order, the grant and the SUPERUSER line |
| CommonGetDbCommand.ParseCommand | common/management/commands/get_db_command.py:11-21 | any (db, user, password) it recovers from a script rebuild that script |
| CommonGetDbCommand.ParseGetCommand | common/management/commands/get_db_command.py:11-21 | the inputs can be read back from the script, so each appears verbatim and the script determines them |
| CustomAuthGetDbCommand.SameAsCommon | custom_auth/management/commands/get_db_command.py:11-21 | the custom_auth copy gives the same script as the common one for every input |
| CustomAuthGetDbCommand.GetCommand | custom_auth/management/commands/get_db_command.py:11-21 | the custom_auth copy of `get_command`; SameAsCommon proves it equal to the common one |
| CustomAuthGetDbCommand.ScriptLines | custom_auth/management/commands/get_db_command.py:12-19 | its script is the same seven `;`-terminated lines |
| BaseModels.Saved | common/base_models.py:15-21 | save moves create_date to the clock only without a truthy key, always moves update_date, keeps is_active and a set key |
| BaseModels.SaveTwice | common/base_models.py:15-21 | saving twice keeps the first save's creation time and takes the second's modification time |
| BaseModels.ZeroKeyResetsCreation | common/base_models.py:17-18 | a key of 0 is falsy, so every save rewrites create_date and the key stays 0 |
| BaseModels.BaseDjangoModel.constructor | common/base_models.py:8-10 | a new object has no key, each timestamp at its own reading of the clock, and is_active True |
| BaseModels.BaseDjangoModel.Save | common/base_models.py:15-21 | the object's new state is the saved state of its old one |
| BaseModels.CreateAndSaveTwice | common/base_models.py:8-21 | a new object saved twice has the first save's creation time, the second's modification time, its key, and is active |

## Left out

- The `Command` classes of both management commands are not modelled: `handle`, `handle_app`, `add_arguments`, `warning`, `get_apps` and `cprint`. They cover argument parsing, the app registry, `sys.exit`, file writes, clipboard copying, `stdout`, `settings.DATABASES` and `datetime.now`, all of which are I/O.
- `get_models` and Django's `_meta` introspection become an explicit sequence of field descriptors per model. The related-row count `related_model.objects.all()[:n].count()` becomes a given count per foreign key, capped as the code caps it.
- `_get_related_model` is not modelled, because the related count is given directly.
- `_process_many_to_many` is not modelled, because nothing calls it.
- `date_hierarchy_threshold` is stored in the options (`dateHierarchyThreshold`) but no operation reads it, as in the code.
- Thresholds are natural numbers. With database queries on, a foreign key whose `max(list_filter_threshold, raw_id_threshold)` is negative makes the queryset slice `[:max_count]` raise; that case is not modelled.
- `re.search` with IGNORECASE becomes the uninterpreted `matches(pattern, name)` parameter.
- Python `repr` escaping is not modelled: a string renders as `'s'`.
- The `TypeError` branch of `_yield_value` is not modelled, because every modelled property value is a list, a dict or a string.
- `__repr__`, the `__str__` methods and the `six` Python 2 branches are not modelled.
- GenerateAdmin.AdminModel.Process: re-running `_process` on the same object is not modelled. Process is stated relative to the current plan, but the rendered model text (`ModelText`) always starts from a fresh plan.
- GenerateAdmin.AdminApp.Iter: returns the selected model declarations rather than `AdminModel` objects. `Unicode` creates one `AdminModel` per selected model, which has the same observable effect.
- `ipaddress.ip_address` and `urlparse(...).netloc` become the `parse` and `host` parameters. The debug `print` of `is_internal_ip` is output only and is left out.
- `hasattr(request, "user") and request.user` becomes an optional user that is present only when truthy.
- The logging runtime is not modelled:
  - the log directory `mkdir` loop, `setLoggerClass` and `addLevelName`;
  - handler I/O and file rotation;
  - the manager's walk up the logger hierarchy and `logging.disable`. The level found up the hierarchy (used when the logger's own level is NOTSET) and the global disable level are constructor parameters.
- The "loggers" and "formatters" sections of `LOGGING` and the LOG_VIEWER constants are configuration data without behaviour, so they are not modelled.
- `logging.Formatter.format` itself becomes its rendered text. The `termcolor` colour codes become a `Palette` parameter.
- `str.lower` is modelled on the ASCII letters only; other characters are left as they are. `str.strip` removes exactly the characters `str.isspace` accepts.
- The `decouple` configuration of the log file names becomes the two file-name parameters of `Handlers`.
- `timezone.now()` becomes clock parameters. `super().save()` is reduced to the key the database assigns to an unsaved object.
