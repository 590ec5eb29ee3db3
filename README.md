# Invoice dashboard: route authorisation and invoice actions

A Dafny model of the logic in the Next.js invoice dashboard. It covers two pieces.

- **Route authorisation** (`AuthConfig`): the `authorized` callback of the NextAuth configuration. It reads two things: whether the session has a user, and whether the request path starts with `/dashboard`. From those it allows the request, refuses it (the framework then sends the browser to the sign-in page `/login`), or redirects a signed-in user to `/dashboard`.
- **Invoice actions** (`InvoiceSchema`, `InvoiceActions`): the server actions `createInvoice` and `updateInvoice`. Each one reads three fields from the submitted form and parses them with the zod schema. It then turns the amount into cents, and on create stamps the calendar day. It writes the `invoices` table, revalidates `/dashboard/invoices` and redirects there. The table is a class `InvoiceTable`: a map from row id to row, plus a log of effects (`Write`, `Revalidate(path)`, `Redirect(path)`). A thrown error (from the parse or from the SQL call) ends the action with no effects at all.

`Strings` holds the two JavaScript string operations involved: `startsWith`, and `split` on a one-character separator together with its inverse `join`. `Wrappers` holds `Option` and `Result`.

`actions.ts` does not require a positive amount, does not round `amount * 100`, throws on a parse or SQL error instead of returning per-field messages, and has no delete action.

## Model

| member | source | states |
|---|---|---|
| `Strings.StartsWithIff` | nextjs-dashboard/auth.config.ts:14 | `startsWith(p)` holds exactly when the string is `p` followed by some rest |
| `Strings.Split` | nextjs-dashboard/app/lib/actions.ts:31 | `split(sep)` gives at least one piece and no piece contains `sep`. The first piece is a prefix of the input and ends at the first `sep` or at the end |
| `Strings.JoinSplit` | nextjs-dashboard/app/lib/actions.ts:31 | splitting loses nothing: joining the pieces with `sep` gives the input back |
| `Strings.FirstPieceUnique` | nextjs-dashboard/app/lib/actions.ts:31 | the first piece is the only prefix with no `sep` that stops at a `sep` or at the end |
| `AuthConfig.Authorized` | nextjs-dashboard/auth.config.ts:11-24 | refuse iff logged out on a `/dashboard`-prefixed path; redirect iff logged in elsewhere; allow iff login state and protection agree. The redirect goes to `/dashboard` on the request's own origin |
| `AuthConfig.Landing` | nextjs-dashboard/auth.config.ts:6 | an allowed request stays put, a refused one lands on `/login`, a redirect lands on its target |
| `AuthConfig.ProtectedIsPrefix` | nextjs-dashboard/auth.config.ts:14 | a path is protected iff it is `/dashboard` followed by anything, so `/dashboardx` is protected. `/login` and `/` are not |
| `AuthConfig.NeverDenyLoggedIn` | nextjs-dashboard/auth.config.ts:15-23 | a logged-in user is never refused and a logged-out user is never redirected |
| `AuthConfig.DependsOnlyOnFlagAndPath` | nextjs-dashboard/auth.config.ts:13-14 | the decision depends only on user presence, the path and the origin. The rest of the session and the query string play no part |
| `AuthConfig.SettlesInOneStep` | nextjs-dashboard/auth.config.ts:14-23 | no redirect loop: the page the framework lands on after any decision is allowed |
| `InvoiceSchema.Get` | nextjs-dashboard/app/lib/actions.ts:24-27 | `formData.get(name)` is `null` iff no entry has that name. Otherwise it is the value of the first such entry |
| `InvoiceSchema.ParseString` | nextjs-dashboard/app/lib/actions.ts:11 | `z.string()` accepts exactly strings (an empty one too) and rejects `null` and files |
| `InvoiceSchema.ParseStatus` | nextjs-dashboard/app/lib/actions.ts:14 | `z.enum` accepts exactly `"pending"` and `"paid"` |
| `InvoiceSchema.Parse` | nextjs-dashboard/app/lib/actions.ts:9-19 | the parse succeeds iff `customerId` is a string, the amount coerces to a number and the status is one of the two labels. On failure, each failing field is reported, not just the first |
| `InvoiceSchema.ParseReadsOnlySchemaFields` | nextjs-dashboard/app/lib/actions.ts:19-28 | forms that agree on the three schema fields parse alike, so `id` and `date` are never taken from the form |
| `InvoiceSchema.MissingFieldsFail` | nextjs-dashboard/app/lib/actions.ts:11-14 | a missing `customerId` or `status` fails; an empty `customerId` passes |
| `InvoiceSchema.AmountUnbounded` | nextjs-dashboard/app/lib/actions.ts:12 | any number passes as the amount, including 0 and negatives. With JavaScript's `Number`, a missing amount passes as 0 |
| `InvoiceActions.Cents` | nextjs-dashboard/app/lib/actions.ts:29 | the stored amount divided by 100 is the parsed amount: no rounding |
| `InvoiceActions.DateOf` | nextjs-dashboard/app/lib/actions.ts:31 | the stamped date is a prefix of the timestamp, has no `T`, and stops at the first `T` |
| `InvoiceActions.DateOfIsoTimestamp` | nextjs-dashboard/app/lib/actions.ts:31 | for a `YYYY-MM-DDTHH:mm:ss.sssZ` timestamp the date is its first ten characters |
| `InvoiceActions.InsertRow` | nextjs-dashboard/app/lib/actions.ts:34-37 | the insert fails iff the id is taken. Otherwise it adds exactly that row and leaves every other row as it was |
| `InvoiceActions.UpdateRows` | nextjs-dashboard/app/lib/actions.ts:57-61 | the update keeps the key set. On the matching row it replaces customer, amount and status and keeps the date. Every other row is untouched, and with no match the table is unchanged |
| `InvoiceActions.CompletedAppend` | nextjs-dashboard/app/lib/actions.ts:34-40 | a log of whole actions stays whole after one more write-revalidate-redirect |
| `InvoiceActions.CompletedOrder` | nextjs-dashboard/app/lib/actions.ts:57-64 | in a whole log, each write is followed at once by revalidating `/dashboard/invoices` and then by the redirect there. The log ends with a redirect |
| `InvoiceActions.RedirectTargetProtected` | nextjs-dashboard/app/lib/actions.ts:40 | `/dashboard/invoices` is protected: after the redirect a logged-in user is allowed and a logged-out user is refused |
| `InvoiceActions.InvoiceTable.Execute` | nextjs-dashboard/app/lib/actions.ts:34-37 | a statement either fails with no change, or applies `InsertRow`/`UpdateRows` and is logged as a write |
| `InvoiceActions.InvoiceTable.RevalidatePath` | nextjs-dashboard/app/lib/actions.ts:39 | logs the revalidation and leaves the table alone |
| `InvoiceActions.InvoiceTable.RedirectTo` | nextjs-dashboard/app/lib/actions.ts:40 | logs the redirect and ends the action with `Redirected(path)` |
| `InvoiceActions.InvoiceTable.CreateInvoice` | nextjs-dashboard/app/lib/actions.ts:22-42 | with `coerce` agreeing with JavaScript's `Number`, a parse failure or a refused insert changes nothing. Success adds exactly the row (customer, amount×100, status, date before `T`) under the new id, then logs write, revalidate, redirect. The log stays whole |
| `InvoiceActions.InvoiceTable.UpdateInvoice` | nextjs-dashboard/app/lib/actions.ts:48-65 | with `coerce` agreeing with JavaScript's `Number`, a parse failure or a refused update changes nothing. Success applies `UpdateRows` to the row keyed by the `id` argument, then logs write, revalidate, redirect. The log stays whole |

## Left out

- Floating point: `amount * 100` is exact `real` arithmetic. JavaScript doubles (where `0.07 * 100` is not 7) are not modelled, and the result is not claimed to be whole cents.
- `Number(...)` inside `z.coerce.number()` is a parameter of type `FormValue -> Option<real>`. `NumberCoercion` pins only its values on `null`, `""` and files; `CreateInvoice` and `UpdateInvoice` require it, while the pure `Parse` and `ParseForm` are proved for every coercion. `Infinity` has no `real` counterpart.
- The clock (`new Date()`) is the timestamp parameter `now`. Extended years (`+YYYYYY`) from `toISOString` are outside `IsIsoTimestamp`.
- The database: the row id it generates is the `newId` parameter. Whether it accepts a statement (bad UUID text, type or connection errors) is the `accepted` parameter. SQL execution itself is not modelled.
- `revalidatePath`'s cache and `redirect`'s thrown exception are effects in the log plus the `Redirected` outcome.
- NextAuth: sessions, credentials and the `callbackUrl` query that the sign-in redirect adds. Only the presence of `auth.user` enters the model.
- The middleware `matcher` (nextjs-dashboard/middleware.ts:9) is applied by Next.js's own matcher, whose semantics are not visible. Requests are assumed to reach the callback.
- `generatePagination`: its implementation (app/lib/utils.ts) is not part of this model. Its tests pin only three input/output pairs.
- A delete action, per-field error messages, rounding and a positive-amount check do not appear in the modelled code.
- React pages, layout, error boundary and fonts: these only render.
- Concurrency between requests: each action is one call on the table.
