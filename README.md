# ZDB data hub: a Dafny model of its session store, editors and navigation

ZDB is a browser dashboard for a "hybrid database manager". Its backend calls
are all mocked. What it does decide for itself is modelled here:

- **Session and role store** (`Auth`, src/contexts/AuthContext.tsx). This is the
  current user and token, kept in step with the browser storage keys
  `zdb_token` and `zdb_user`. The store has three parts:
  - a three-level role hierarchy (Admin ⊇ Developer ⊇ Viewer) that answers `hasRole`;
  - login and register, each of which takes the server's answer or, on any failure, builds a fallback session;
  - logout, and the mount effect that restores a stored session.

  `AuthProvider` is a class with the fields `user`, `token` and `storage`.
- **SQL table editor** (`SqlManager`) and **NoSQL collection editor**
  (`NoSqlManager`). Each is a class whose fields are the component's state
  variables. Each handler is a method that either rejects and leaves the state
  as it was, or performs its writes.
- **Export form** (`Export`). It derives the export format and file name, lists
  the tables for a database type, and clears the table choice when the type
  changes.
- **Navigation rules** (`Layout`). These cover the role-dependent sidebar,
  the highlighting of the current link, and the avatar initials.
- **String helpers** (`Text`). These are the JavaScript `split`,
  `startsWith` and `toLowerCase` that the rules above rely on. `Join` is
  there only to state that `Split` loses nothing (split then join gives back
  the input). The avatar's `join('')` is `Layout.FirstChars`.

The server's reply to login or register is a parameter
(`reply: Option<Session>`): `Some` is a successful reply and `None` is any
failure. The validity check `JSON.parse` makes on a document is also a
parameter (`parses`).

Three behaviours of the source are worth stating, since the types suggest otherwise:
- The `User` type (src/contexts/AuthContext.tsx:9) names three roles, but `register` casts any string to a role (:122).
- A failed login or register request is not reported: the `catch` at :70 (and :116) builds a session.
- `isAuthenticated` (:168) and the mount effect (:40) use JavaScript truthiness, so an empty token counts as no token.

## Model

| member | source | states |
|---|---|---|
| Text.Split | src/contexts/AuthContext.tsx:74 | `split` on one character always yields at least one part, and no part contains the separator |
| Text.JoinSplit | src/components/layout/DashboardLayout.tsx:106 | joining the parts of a split on the same separator gives back the input |
| Text.SplitHead | src/contexts/AuthContext.tsx:74 | the first part of a split is the prefix before the first separator, or the whole string when there is none |
| Text.StartsWith | src/components/layout/DashboardLayout.tsx:43 | `startsWith` holds iff the prefix is a prefix of the string |
| Text.ToLower | src/components/export/ExportPage.tsx:35 | `toLowerCase` keeps the length and lower-cases each ASCII letter, leaving other characters alone |
| Auth.HasRole | src/contexts/AuthContext.tsx:150-160 | with no user, no role is granted; otherwise a role is granted iff it is a known role ranked at or below the user's role, and a user with an unknown role is granted nothing |
| Auth.HasRoleMonotone | src/contexts/AuthContext.tsx:153-157 | a higher role grants everything a lower one does (Viewer ⊆ Developer ⊆ Admin) |
| Auth.HasRoleTransitive | src/contexts/AuthContext.tsx:153-157 | if a user's role grants b, and role b grants c, then the user's role grants c |
| Auth.HasRoleAsWritten | src/contexts/AuthContext.tsx:159 | evaluated as written, `hasRole` throws exactly when the user's role names an inherited object member; otherwise it agrees with HasRole |
| Auth.HasRoleThrowsOnInheritedRoleName | src/contexts/AuthContext.tsx:159 | a user with role "toString" makes `hasRole("Viewer")` throw, where the corrected HasRole answers false |
| Auth.Persist | src/contexts/AuthContext.tsx:61-64 | writing a session sets the token key and the user key and leaves every other key alone |
| Auth.PersistRestored | src/contexts/AuthContext.tsx:36-44 | a reload restores exactly the written session, and does so iff its token is non-empty |
| Auth.ClearedNotRestored | src/contexts/AuthContext.tsx:138-142 | after both keys are removed, a reload restores nothing |
| Auth.Restored | src/contexts/AuthContext.tsx:37-42 | a reload restores a session only if storage already holds it with a non-empty token; any session storage holds with a non-empty token is the one restored |
| Auth.RegisterFallback | src/contexts/AuthContext.tsx:117-124 | the fallback user has id "1", the form's name, e-mail and role string, and the mock token; its role, taken unchecked from the form, grants exactly the known roles at or below it, and nothing if it is not a role |
| Auth.AuthProvider.IsAuthenticated | src/contexts/AuthContext.tsx:168 | false without a user or a token; with both, true iff a reload of the written pair would restore it (a non-empty token) |
| Auth.LoginFallback | src/contexts/AuthContext.tsx:71-78 | the fallback user has id "1", the given e-mail, role Admin and the mock token; its name is the e-mail's prefix before its first '@' |
| Auth.UnknownRoleGrantsNothing | src/contexts/AuthContext.tsx:116-123 | a user registered through the fallback with a role outside the hierarchy is granted no role |
| Auth.AuthProvider.constructor | src/contexts/AuthContext.tsx:32-34 | the provider starts anonymous over the storage the browser kept |
| Auth.AuthProvider.Rehydrate | src/contexts/AuthContext.tsx:36-44 | the mount effect restores user and token only when both keys hold a session with a non-empty token; otherwise it changes nothing |
| Auth.AuthProvider.Establish | src/contexts/AuthContext.tsx:61-64 | a successful transition sets user and token and writes the same pair to storage |
| Auth.AuthProvider.Login | src/contexts/AuthContext.tsx:46-90 | login installs the server's session, or the fallback session if the request failed, and storage mirrors it |
| Auth.AuthProvider.Register | src/contexts/AuthContext.tsx:92-136 | register installs the server's session, or the fallback built from the form (role unchecked), and storage mirrors it |
| Auth.AuthProvider.Logout | src/contexts/AuthContext.tsx:138-148 | logout clears user and token and removes both keys; afterwards the session is not authenticated and no role is granted |
| Auth.AuthenticatedIffRestorable | src/contexts/AuthContext.tsx:168 | while state and storage agree, `isAuthenticated` holds iff a reload would restore this same session |
| Layout.Navigation | src/components/layout/DashboardLayout.tsx:29-37 | the sidebar is the six fixed entries in order, then "Admin Panel" iff the user is an Admin (7 entries, else 6) |
| Layout.IsCurrentPath | src/components/layout/DashboardLayout.tsx:39-44 | "/" is highlighted only on exactly "/"; any other link is highlighted iff it is a prefix of the location |
| Layout.PrefixMatchIgnoresSegments | src/components/layout/DashboardLayout.tsx:43 | "/sql" is highlighted on "/sqlx" but not on "/nosql", and "/" is not highlighted on "/sql" |
| Layout.OnlyOwnEntryHighlighted | src/components/layout/DashboardLayout.tsx:29-44 | on the page an entry links to, that entry and no other is highlighted |
| Layout.FirstChars | src/components/layout/DashboardLayout.tsx:106 | `map(n => n[0]).join('')` gives at most one character per word, and nothing iff every word is empty |
| Layout.InitialsAreWordStarts | src/components/layout/DashboardLayout.tsx:106 | the first characters of the space-separated words are exactly the characters that start a word |
| Layout.NoWordStartsIffBlank | src/components/layout/DashboardLayout.tsx:106 | a name has no word start iff it is all spaces |
| Layout.AvatarText | src/components/layout/DashboardLayout.tsx:106 | the avatar shows the word-start initials of the name, or "U" when there is no user or the name is blank; it is never empty |
| Layout.AvatarExamples | src/components/layout/DashboardLayout.tsx:106 | "Al  Bo" (two spaces) gives "AB", because an empty word adds nothing, and an empty name gives "U" |
| SqlManager.WithoutIndex | src/components/sql/SQLManager.tsx:30-32 | the index filter removes exactly the entry at an in-range index and keeps the rest in order; an out-of-range index removes nothing |
| SqlManager.WithoutIndexKeepsOne | src/components/sql/SQLManager.tsx:249-257 | removing from a list of more than one field leaves at least one |
| SqlManager.HasUnnamedField | src/components/sql/SQLManager.tsx:41 | holds iff some field has an empty name |
| SqlManager.CanModify | src/components/sql/SQLManager.tsx:128 | editing is allowed iff the user's role is Admin or Developer |
| SqlManager.SqlManager.constructor | src/components/sql/SQLManager.tsx:15-19 | the initial tables are users, orders, products; there is one default field and nothing is selected or queried |
| SqlManager.SqlManager.AddTableField | src/components/sql/SQLManager.tsx:26-28 | appends exactly one default field; earlier fields are unchanged |
| SqlManager.SqlManager.RemoveTableField | src/components/sql/SQLManager.tsx:30-32 | the field list becomes the list without the given index; when removal was offered (more than one field), at least one remains |
| SqlManager.SqlManager.UpdateTableField | src/components/sql/SQLManager.tsx:34-38 | only the chosen attribute of the chosen field changes; every other field and attribute is unchanged |
| SqlManager.SqlManager.SetNewTableName | src/components/sql/SQLManager.tsx:221 | the name input sets the new table name |
| SqlManager.SqlManager.SelectTable | src/components/sql/SQLManager.tsx:158 | the table selector sets the selected table |
| SqlManager.SqlManager.CreateTable | src/components/sql/SQLManager.tsx:40-68 | rejected, with no state changed, iff the name is empty or some field is unnamed; otherwise the name is appended (duplicates allowed) and the form is reset to one default field |
| SqlManager.SqlManager.ExecuteQuery | src/components/sql/SQLManager.tsx:70-100 | with no table selected nothing changes; otherwise the results become the three canned rows |
| SqlManager.SqlManager.ExportData | src/components/sql/SQLManager.tsx:102-126 | succeeds iff a table is selected; changes no state |
| NoSqlManager.CanModify | src/components/nosql/NoSQLManager.tsx:137 | editing is allowed iff the user's role is Admin or Developer |
| NoSqlManager.NoSqlManager.constructor | src/components/nosql/NoSQLManager.tsx:16-20 | the initial collections are users, products, logs, the document text is the sample object, and nothing is selected or queried |
| NoSqlManager.NoSqlManager.SetNewCollectionName | src/components/nosql/NoSQLManager.tsx:217 | the name input sets the new collection name |
| NoSqlManager.NoSqlManager.SelectCollection | src/components/nosql/NoSQLManager.tsx:167 | the collection selector sets the selected collection |
| NoSqlManager.NoSqlManager.SetJsonData | src/components/nosql/NoSQLManager.tsx:258 | the text area sets the document text |
| NoSqlManager.NoSqlManager.CreateCollection | src/components/nosql/NoSQLManager.tsx:22-49 | rejected, with no state changed, iff the name is empty; otherwise the name is appended (duplicates allowed) and cleared |
| NoSqlManager.NoSqlManager.InsertDocument | src/components/nosql/NoSQLManager.tsx:51-77 | reports missing information iff no collection is selected or the text is empty; otherwise invalid JSON iff the text does not parse; changes no state |
| NoSqlManager.NoSqlManager.QueryDocuments | src/components/nosql/NoSQLManager.tsx:79-109 | with no collection selected nothing changes; otherwise the results become the three canned documents |
| NoSqlManager.NoSqlManager.ExportData | src/components/nosql/NoSQLManager.tsx:111-135 | succeeds iff a collection is selected; changes no state |
| Export.ExportFormat | src/components/export/ExportPage.tsx:34 | the format is CSV or JSON, CSV iff the database is "sql", and its lower-case form is "csv" or "json" accordingly |
| Export.ExportFileName | src/components/export/ExportPage.tsx:34-35 | the file name is the table name followed by ".csv" for the SQL database and ".json" for any other value |
| Export.BadgeMatchesExport | src/components/export/ExportPage.tsx:50-59 | for "sql" and "nosql", the format badge equals the export format, the file extension is the badge lower-cased, and three tables are offered |
| Export.ExportPage.constructor | src/components/export/ExportPage.tsx:11-13 | nothing is selected and no format is shown |
| Export.ExportPage.ChangeDatabase | src/components/export/ExportPage.tsx:83-86 | changing the database type always clears the table choice |
| Export.ExportPage.SelectTable | src/components/export/ExportPage.tsx:103 | the table selector sets the selected table |
| Export.ExportPage.GetAvailableTables | src/components/export/ExportPage.tsx:50-59 | "sql" lists the SQL tables and sets CSV; "nosql" lists the NoSQL collections and sets JSON; any other value lists nothing and keeps the format |
| Export.ExportPage.HandleExport | src/components/export/ExportPage.tsx:20-48 | rejected iff the type or the table is missing; otherwise the format is CSV for "sql" and JSON otherwise, and the file is the table name plus the lower-cased format; changes no state |

## Findings

| source | as written | input that shows it | evidently intended | confidence | as-written member | corrected member |
|---|---|---|---|---|---|---|
| src/contexts/AuthContext.tsx:159 | `roleHierarchy[user.role]?.includes(role)` guards only against a missing entry. A role naming an inherited member of every object (`toString`, `constructor`, `__proto__`, …) finds a value that has no `includes`, so the call throws a TypeError during rendering | a user registered through the fallback with role "toString", then `hasRole("Viewer")` | an unknown role grants nothing (`|| false`) | medium, not executed | Auth.HasRoleAsWritten, Auth.HasRoleThrowsOnInheritedRoleName | Auth.HasRole |

## Left out

- The `fetch` requests of login and register, and the decoding of their replies, are network I/O. The reply is a parameter. A login reply without a user throws when its greeting reads the user's name, which also ends in the fallback: that is the `None` case.
- Auth.AuthProvider.Register: a successful reply without a user is not modelled. The register greeting does not read the user, so nothing throws. `user` is left undefined while `token` is set, and `zdb_user` holds the string "undefined". On the next mount, `JSON.parse` of that string throws. In the model a reply always carries a user.
- `JSON.stringify` and `JSON.parse` of the stored user. Storage holds the user as a record. An entry that does not hold the kind of value written under its key restores nothing. In the source, `JSON.parse` of such an entry could throw or produce a value that is not a user.
- A server reply whose token is missing is not modelled. The source would store the string "undefined" in that case; in the model the token is always a string.
- Toast notifications, the `setTimeout` delays and the interleavings of async handlers. Each handler is atomic. The `catch` branches of the table and collection creators, the queries and the export handlers can only be reached through a toast failure, so they are not modelled. The exception is `insertDocument`: its `catch` (src/components/nosql/NoSQLManager.tsx:70-76) runs when `JSON.parse` throws at :62, and NoSqlManager.NoSqlManager.InsertDocument models it as the `InvalidJson` outcome, chosen by its `parses` parameter.
- The validity check `JSON.parse` makes on a document is not modelled; its result is the `parses` parameter of InsertDocument.
- The route guard `ProtectedRoute` and the login and register pages. src/components/auth/ProtectedRoute.tsx is not part of this model.
- The admin, alerts, settings, forgot-password and dashboard pages hold only mock handlers and static data.
- Sidebar icons, styling, JSX rendering, `autoRefresh` and `syncStatus`. These are presentation only.
- SqlManager.SqlManager.UpdateTableField: the model updates a value. The source mutates the object that the old and new arrays share, and that sharing is not observable once the new array replaces the old one. The model also does not restrict the type to the eight column types the selector offers, just as the handler does not.
- Layout.AvatarText: initials are taken per character (a Unicode scalar value), not per UTF-16 code unit as `n[0]` does. For a name that starts with a character outside the Basic Multilingual Plane, such as "😀 Ann", the source shows a lone surrogate followed by "A", while the model shows the whole character followed by "A".
- NoSqlManager: the canned documents' `_id` key is the field `id` of `Document`, because a Dafny name cannot start with an underscore.
- Text.ToLower: lower-cases ASCII letters only, not the Unicode case mapping of `toLowerCase`. The function is only applied to "CSV" and "JSON".
- NoSqlManager: the canned prices are exact decimals rather than JavaScript floating-point numbers.
- Export.ExportPage.GetAvailableTables: the model treats its write of the format badge as one settled update. In the source it runs inside the page's own render whenever a database type is chosen, and it sets the format state on every run. React queues a state update made during a component's own render and renders again. That path skips the equal-value bailout, so as written the render may repeat until React's re-render limit throws. If so, choosing "sql" or "nosql" would never settle, and HandleExport's export branch would not be reached. The evidently intended form derives the badge from the type, and Export.BadgeMatchesExport shows that this agrees with Export.ExportFormat.
