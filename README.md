# PlanT core, modelled in Dafny

PlanT is a small bookkeeping application for freelancers and small
businesses. An Express/Mongoose server keeps users, projects, incomes and
expenses, and a React client lets a signed-in user manage them. This project
models the core of both halves and proves properties of the model.

Server side:

- the ID allocator. Each entity kind has a persisted counter. An ID is the
  kind's offset plus the incremented counter, written in decimal.
- the user, expense and income collections. These are tables keyed by
  internal ID, with the schemas' required, enum, default and unique rules.
- the user password hashing on save and on update.
- the generic request-body validator and the user create/update rule sets.
- register and login in the auth controller.
- the bearer-token middleware, with the client interceptor that writes the
  header.
- the environment configuration object.

Client side:

- the expense list filter.
- the new-expense and new-project forms.
- the expense and project details pages.
- the login form.

Where the source keeps state that its operations change, the model is a
class whose methods state the new state:

- the counter store and the three collections;
- the page and form state of the client pages;
- the request the middleware annotates.

Everything else is modelled as functions over datatypes. Each class keeps an
invariant, stated by a `Valid()` predicate or by the method contracts, and
the lemmas beside it relate the operations to one another.

Things outside the model are parameters:

- the database being reachable is a boolean, `available`;
- bcrypt is a `Bcrypt(hash, compare)` pair of functions;
- JWT signing and verification are functions;
- JavaScript's `Number()`, number-to-text and the date conversions are the
  `Runtime` record;
- the user ID read from local storage is a parsing function;
- the outcome of a client request is an argument.

Files:

| file | module | models |
|---|---|---|
| common.dfy | Common | Option/Result, JS string helpers (`trim`, `toLowerCase`, `split`), decimal rendering |
| counter.dfy | Counter | `counter.service.ts`, `counter.model.ts` |
| user_model.dfy | UserModel | `user.model.ts`, `UserService.validatePassword` |
| expense_model.dfy | ExpenseModel | `expense.model.ts` |
| income_model.dfy | IncomeModel | `income.model.ts` |
| validate.dfy | Validate | `utils/validate.ts` |
| user_validator.dfy | UserValidator | `validators/user.validator.ts` |
| auth_controller.dfy | AuthController | `controllers/auth/auth.controller.ts` |
| auth_middleware.dfy | AuthMiddleware | `middleware/auth.middleware.ts`, the request interceptor of `app/src/utils/api.ts` |
| config_env.dfy | ConfigEnv | `config/config.env.ts` |
| shared_types.dfy | SharedTypes | the expense and project records of `shared/types/models` |
| auth_user.dfy | AuthUser | `getAuthUserId` of the create pages |
| expenses_page.dfy | ExpensesPage | `Pages/Expenses.tsx` |
| create_expense.dfy | CreateExpense | `Pages/CreateExpense.tsx` |
| expense_details.dfy | ExpenseDetails | `Pages/ExpenseDetails.tsx` |
| create_project.dfy | CreateProject | `Pages/CreateProject.tsx` |
| project_details.dfy | ProjectDetails | `Pages/ProjectDetails.tsx` |
| login_page.dfy | LoginPage | `Pages/LoginPage.tsx` and its copy `pages/LoginPage.tsx` |

## Model

| member | source | states |
|---|---|---|
| Counter.IdForInjective | apps/core/src/utils/counter.service.ts:39-40 | two sequence values of one kind give the same ID only if they are equal |
| Counter.NextIdIsFresh | apps/core/src/utils/counter.service.ts:28-41 | the ID for the incremented counter differs from every ID issued before |
| Counter.IssuedMonotonic | apps/core/src/utils/counter.service.ts:32-36 | the set of issued IDs only grows as the counter grows |
| Counter.UserAndProjectRangesDisjoint | apps/core/src/utils/counter.service.ts:4-11 | User and Project IDs never collide while the User counter stays below 100000 |
| Counter.ProjectAndIncomeRangesDisjoint | apps/core/src/utils/counter.service.ts:4-11 | Project and Income IDs never collide while the Project counter stays below 29800000 |
| Counter.IncomeAndExpenseRangesDisjoint | apps/core/src/utils/counter.service.ts:4-11 | Income and Expense IDs never collide while the Income counter stays below 10000000 |
| Counter.CounterStore.NextId | apps/core/src/utils/counter.service.ts:28-41 | an unreachable store fails and changes nothing; otherwise the kind's counter (0 when absent) goes up by one, the result is offset plus counter in decimal, it is fresh, and no other kind's counter changes |
| Counter.FirstProjectIds | apps/core/src/utils/counter.service.ts:4-9 | the first three Project IDs are "200001", "200002" and "200003" |
| Counter.ThreeProjectIds | apps/core/src/models/counter.model.ts:10-11 | a fresh store, whose counters start at 0, hands out 200001, 200002 and 200003 |
| Counter.WidgetId | apps/core/src/utils/counter.service.ts:29 | a kind missing from the offset table gets offset 0, so its first ID is "1" |
| UserModel.BuildUser | apps/core/src/models/user.model.ts:24-33 | a document saves exactly when the required strings are present and non-empty and any role is admin, user or guest; the password is stored hashed; role defaults to "user" and isActive to true |
| UserModel.Serialize | apps/core/src/models/user.model.ts:35-47 | the JSON and object forms drop `password` and keep every other path unchanged |
| UserModel.StoredPassword | apps/core/src/models/user.model.ts:93-95 | the corrected rule: an update stores a password exactly when one is supplied, and what it stores is a bcrypt hash |
| UserModel.ApplyPatch | apps/core/src/models/user.model.ts:89-97 | the update as written: the document overwrites exactly the supplied paths, `internalId` among them. It hashes a supplied non-empty password and stores a supplied "" as it is. The database key never changes |
| UserModel.ApplyPatchKeepsHashOrEmpty | apps/core/src/models/user.model.ts:89-97 | an update as written leaves the stored password a hash or "", whatever it supplies |
| UserModel.EmptyPasswordStoredUnhashed | apps/core/src/models/user.model.ts:93-95 | as written, an update supplying `password: ""` leaves the password "", which no bcrypt hash equals |
| UserModel.CorrectedApplyPatch | apps/core/src/models/user.model.ts:89-97 | the corrected update: it agrees with the update as written except for a supplied "", hashes every supplied password, and keeps a hashed password hashed |
| UserModel.UserTable.ListUsers | apps/core/src/models/user.model.ts:77-79 | the result holds exactly the stored documents |
| UserModel.UserTable.GetUserByEmail | apps/core/src/models/user.model.ts:81-83 | a stored document with that e-mail, or none when no document has it |
| UserModel.UserTable.GetUserByInternalId | apps/core/src/models/user.model.ts:85-87 | the stored document with that internal ID, or none when there is none |
| UserModel.UserTable.ValidatePassword | apps/core/src/models/user.model.ts:66-75 | true exactly when a user with that internal ID exists and bcrypt accepts the password against its stored hash |
| UserModel.UserTable.ServiceValidatePassword | apps/core/src/services/user/user.service.ts:43-47 | the service's extra lookup never changes the model's answer, and an unknown ID gives false |
| UserModel.UserTable.CreateUser | apps/core/src/models/user.model.ts:58-64 | the table stays valid, with unique e-mails; the inserted password is a hash. An unreachable store fails with no change. Otherwise the User counter goes up. A user is inserted exactly when the data passes the schema, the e-mail is unused and no user holds the allocated ID. A used e-mail or a held ID gives a duplicate-key error. While every stored ID came from the allocator, no ID is held |
| UserModel.UserTable.UpdateUserInternalId | apps/core/src/models/user.model.ts:89-97 | an unknown ID gives none with no change. A new internal ID or e-mail held by another user gives a duplicate-key error with no change. Otherwise the document patched as written (`ApplyPatch`) replaces the old one under its (possibly new) internal ID. The table stays valid, every stored password a hash or "" |
| UserModel.UserTable.DeleteUser | apps/core/src/models/user.model.ts:99-101 | removes the document whose database key matches, at most one, and keeps every other document unchanged |
| ExpenseModel.BuildExpense | apps/core/src/models/expense.model.ts:18-34 | an expense saves exactly when userId and currency are non-empty, amount and date are present, and the category (default "other") is one of the nine categories |
| ExpenseModel.ApplyPatch | apps/core/src/models/expense.model.ts:60-65 | supplied paths are overwritten, `internalId` among them, and the others are kept, without re-running the validators |
| ExpenseModel.EmptyPatchIsIdentity | apps/core/src/models/expense.model.ts:60-65 | an update supplying nothing leaves the document unchanged |
| ExpenseModel.ApplyPatchIdempotent | apps/core/src/models/expense.model.ts:60-65 | applying the same update twice equals applying it once |
| ExpenseModel.ExpenseTable.ListExpenses | apps/core/src/models/expense.model.ts:44-46 | the result holds exactly the stored documents |
| ExpenseModel.ExpenseTable.GetExpenseByInternalId | apps/core/src/models/expense.model.ts:48-52 | the stored document with that ID, or none |
| ExpenseModel.ExpenseTable.CreateExpense | apps/core/src/models/expense.model.ts:36-42 | an unreachable store fails with no change. Otherwise the Expense counter goes up, and the document is inserted under the fresh ID exactly when it passes the schema and no document already holds that ID; a held ID gives a duplicate-key error. While every stored ID came from the allocator, no ID is held and the result is the built document |
| ExpenseModel.ExpenseTable.UpdateExpenseInternalId | apps/core/src/models/expense.model.ts:60-65 | an unknown ID gives none with no change. A new internal ID held by another document gives a duplicate-key error with no change. Otherwise the patched document replaces the old one under its (possibly new) internal ID. Without a new internal ID the set of IDs is unchanged |
| ExpenseModel.ExpenseTable.DeleteExpense | apps/core/src/models/expense.model.ts:67-71 | removes exactly the document with that ID, if any |
| IncomeModel.BuildIncome | apps/core/src/models/income.model.ts:18-48 | an income saves exactly when the required fields are present and non-empty, the category (default "other") is one of five, and any payment method type is one of six; isTaxable defaults to true |
| IncomeModel.ApplyPatch | apps/core/src/models/income.model.ts:74-79 | supplied paths are overwritten, `internalId` among them, and the others are kept, without re-running the validators |
| IncomeModel.IncomeTable.ListIncomes | apps/core/src/models/income.model.ts:58-60 | the result holds exactly the stored documents |
| IncomeModel.IncomeTable.GetIncomeByInternalId | apps/core/src/models/income.model.ts:62-66 | the stored document with that ID, or none |
| IncomeModel.IncomeTable.GetIncomesByProjectId | apps/core/src/models/income.model.ts:68-72 | exactly the stored incomes of that project |
| IncomeModel.IncomeTable.CreateIncome | apps/core/src/models/income.model.ts:50-56 | an unreachable store fails with no change. Otherwise the Income counter goes up, and the document is inserted under the fresh ID exactly when it passes the schema and no document already holds that ID; a held ID gives a duplicate-key error. While every stored ID came from the allocator, no ID is held and the result is the built document |
| IncomeModel.IncomeTable.UpdateIncomeInternalId | apps/core/src/models/income.model.ts:74-79 | an unknown ID gives none with no change. A new internal ID held by another document gives a duplicate-key error with no change. Otherwise the patched document replaces the old one under its (possibly new) internal ID. Without a new internal ID the set of IDs is unchanged |
| IncomeModel.IncomeTable.DeleteIncome | apps/core/src/models/income.model.ts:81-85 | removes exactly the document with that ID, if any |
| Validate.FailingMessages | apps/core/src/utils/validate.ts:21-27 | no message exactly when every rule passes, and never more messages than rules |
| Validate.Errors | apps/core/src/utils/validate.ts:12-28 | every key of the errors object is a key of the rules |
| Validate.ErrorsCharacterized | apps/core/src/utils/validate.ts:14-28 | a field is listed exactly when its value is defined and some rule fails, and then it lists that field's failing messages in rule order |
| Validate.NoEmptyErrorLists | apps/core/src/utils/validate.ts:23-26 | no field is ever listed with an empty list |
| Validate.OnlyRuledKeysInspected | apps/core/src/utils/validate.ts:14-16 | body keys without rules never affect the errors |
| Validate.UndefinedFieldsPass | apps/core/src/utils/validate.ts:18-19 | a body with no defined ruled field gets no errors |
| Validate.PassingBodyReachesNext | apps/core/src/utils/validate.ts:30-34 | a body on which every rule passes gets no errors |
| Validate.EmptyBodyPasses | apps/core/src/utils/validate.ts:18-19 | an empty body always reaches `next` |
| Validate.Decide | apps/core/src/utils/validate.ts:30-34 | 400 with the errors exactly when the errors object is not empty, `next` otherwise |
| Validate.PushFailures | apps/core/src/utils/validate.ts:21-27 | the inner loop leaves the field listed with its failing messages, or unlisted when every rule passes |
| Validate.RunValidator | apps/core/src/utils/validate.ts:9-35 | the loops end with the decision for the errors object of the whole rule set, and every listed field has a message |
| UserValidator.CreateRules | apps/core/src/validators/user.validator.ts:5-18 | the create rule set names four distinct fields |
| UserValidator.UpdateRules | apps/core/src/validators/user.validator.ts:21-34 | the update rule set names the same four distinct fields |
| UserValidator.NameRuleIff | apps/core/src/validators/user.validator.ts:7 | a first name passes exactly when it is a string that is not blank after trimming |
| UserValidator.NonStringsFailEveryRule | apps/core/src/validators/user.validator.ts:5-34 | a defined value that is not a string fails every rule of both sets |
| UserValidator.CreateAndUpdateAgree | apps/core/src/validators/user.validator.ts:5-34 | the two sets name the same fields in the same order, one rule each, and each pair of rules accepts the same values; only the name messages differ |
| UserValidator.OneMessagePerField | apps/core/src/validators/user.validator.ts:5-18 | a rejected field carries exactly one message |
| UserValidator.CreateValidatorAcceptsEmptyBody | apps/core/src/validators/user.validator.ts:5-18 | the create validator lets a body with no fields through, since undefined fields are skipped |
| Common.JsLength | apps/core/src/validators/user.validator.ts:16 | JavaScript `length` counts UTF-16 code units: at least the number of characters and at most twice it, and equal to it when every character lies in the Basic Multilingual Plane |
| UserValidator.PasswordRuleIff | apps/core/src/validators/user.validator.ts:16 | the password rule passes exactly a string of at least six UTF-16 code units: every string of six characters or more, none of fewer than three |
| UserValidator.ThreeEmojiPasswordAccepted | apps/core/src/validators/user.validator.ts:16 | three characters outside the Basic Multilingual Plane have JavaScript length six and pass the password rule |
| UserValidator.ShortPasswordRejected | apps/core/src/validators/user.validator.ts:16 | a string password shorter than six UTF-16 code units is rejected by both validators with the password message alone |
| AuthController.Register | apps/core/src/controllers/auth/auth.controller.ts:13-52 | an unreachable store goes to `next` with the error. A used e-mail gives 400 "Email already in use" with nothing changed. Otherwise the user is created and 201 returns the user without its password and a token signed for its ID and e-mail; creation fails only on the schema or on an allocated ID another user holds, and while every stored ID came from the allocator only on the schema |
| AuthController.Login | apps/core/src/controllers/auth/auth.controller.ts:55-85 | an unknown e-mail and a wrong password both give 401 "Invalid credentials"; otherwise 200 with the user and a token signed for its ID and e-mail |
| AuthController.LoginTokenNamesTheUser | apps/core/src/controllers/auth/auth.controller.ts:72-81 | when login succeeds, its token is signed for the one stored user with that e-mail, and that user's password matched |
| AuthController.RegisteredEmailCannotRegisterAgain | apps/core/src/controllers/auth/auth.controller.ts:24-28 | an e-mail that logs in successfully is taken, which is exactly when registration answers 400 |
| AuthController.EmptyStoredPasswordBlocksLogin | apps/core/src/controllers/auth/auth.controller.ts:55-71 | with a bcrypt whose compare rejects "" as a hash, a user whose stored password is "" fails the password check, and every login with that e-mail answers 401 |
| AuthMiddleware.BearerToken | apps/core/src/middleware/auth.middleware.ts:14 | the token read from a header starting with "Bearer ", its second space-separated piece, holds no space |
| AuthMiddleware.Authenticate | apps/core/src/middleware/auth.middleware.ts:4-23 | a missing header or one not starting with "Bearer " gives "Unauthorized"; a token the verifier refuses gives "Invalid token"; otherwise the decoded claims are accepted |
| AuthMiddleware.ClientHeaderRoundTrip | apps/app/src/utils/api.ts:21-27 | the header the client writes for a space-free token hands that same token to the verifier |
| AuthMiddleware.SignedTokenAccepted | apps/core/src/middleware/auth.middleware.ts:16-19 | a space-free token that the verifier decodes, sent as `Bearer <token>`, is accepted with the decoded claims |
| AuthMiddleware.WelcomeTokenAccepted | apps/core/src/middleware/auth.middleware.ts:6-19 | the token of a `register` or `login` reply for a user is accepted as that user's internal ID and e-mail, given a verifier that decodes what the signer signs |
| AuthMiddleware.LoginTokenAccepted | apps/core/src/controllers/auth/auth.controller.ts:72-81 | a successful login hands out a token the middleware accepts as the internal ID and e-mail of the stored user with that e-mail whose password matched |
| AuthMiddleware.Run | apps/core/src/middleware/auth.middleware.ts:4-23 | a rejected request gets 401 with the message and `req.user` unchanged; an accepted one gets `req.user` set and no reply |
| ConfigEnv.Get | apps/core/src/config/config.env.ts:37-43 | the stored value, or the fallback, or an error naming the key when both are missing |
| ConfigEnv.GetNumber | apps/core/src/config/config.env.ts:46-57 | an absent or empty value gives the fallback, or an error without one; a value that is not a number gives an error; otherwise the number |
| ConfigEnv.GetBoolean | apps/core/src/config/config.env.ts:60-67 | an absent or empty value gives the fallback, or an error without one; otherwise true exactly for "true" and "1" |
| ConfigEnv.Has | apps/core/src/config/config.env.ts:70-72 | true exactly when the key is present, even with an empty value |
| ConfigEnv.All | apps/core/src/config/config.env.ts:75-77 | a copy of the whole environment snapshot |
| ConfigEnv.New | apps/core/src/config/config.env.ts:18-27 | construction fails exactly when PORT is set, non-empty and not a number; otherwise nodeEnv defaults to "development", port to 3000, and baseUrl is the API URL when present |
| ConfigEnv.EmptyEnvironmentDefaults | apps/core/src/config/config.env.ts:22-26 | an empty environment gives "development", 3000 and no base URL |
| ConfigEnv.LookupsReadTheSnapshot | apps/core/src/config/config.env.ts:19 | every lookup on the built object reads the environment copied at construction |
| AuthUser.GetAuthUserId | apps/app/src/components/Pages/CreateExpense.tsx:111-121 | no ID without a stored user; otherwise the `_id` parsed from it, if any |
| ExpensesPage.SearchKey | apps/app/src/components/Pages/Expenses.tsx:42-51 | the search key is empty exactly when the search text is blank |
| ExpensesPage.FilterExpenses | apps/app/src/components/Pages/Expenses.tsx:42-51 | an expense is shown exactly when it is fetched and matches the search, the category and the allocation type |
| ExpensesPage.FilterIsSubsequence | apps/app/src/components/Pages/Expenses.tsx:42-51 | the shown rows keep the fetched order |
| ExpensesPage.FilterAppend | apps/app/src/components/Pages/Expenses.tsx:42-51 | filtering a concatenation filters each part |
| ExpensesPage.FilterIdempotent | apps/app/src/components/Pages/Expenses.tsx:42-51 | filtering the shown rows again changes nothing |
| ExpensesPage.NoCriteriaShowsAll | apps/app/src/components/Pages/Expenses.tsx:42-51 | with a blank search and both selects empty every fetched expense is shown |
| ExpensesPage.AllocationLabel | apps/app/src/components/Pages/Expenses.tsx:59-64 | the general label without allocations, the project ID for one, and "label (n)" for n of them |
| ExpensesPage.MultipleLabelsShowTheCount | apps/app/src/components/Pages/Expenses.tsx:59-64 | rows with different numbers (two or more) of allocations get different labels |
| ExpensesPage.ExpensesPage.Visible | apps/app/src/components/Pages/Expenses.tsx:42-51 | the page shows exactly the fetched expenses matching its current criteria |
| ExpensesPage.ExpensesPage.Clear | apps/app/src/components/Pages/Expenses.tsx:112-116 | the clear button resets all three criteria, after which every fetched list is shown whole |
| CreateExpense.With | apps/app/src/components/Pages/CreateExpense.tsx:68-70 | the changed field takes the value and every other field is kept |
| CreateExpense.BuildPayload | apps/app/src/components/Pages/CreateExpense.tsx:123-154 | the payload carries the form's values and the user ID; a project expense is allocated 100% of the amount to its project, an "other" expense to none |
| CreateExpense.PayloadAllocationsComplete | apps/app/src/components/Pages/CreateExpense.tsx:139-148 | allocations, when present, add up to 100 percent and each carries the whole amount |
| CreateExpense.SubmittableFormPassesSchema | apps/app/src/components/Pages/CreateExpense.tsx:94-109 | a submittable form with a category from the select produces a payload the server's expense schema accepts |
| CreateExpense.CreateExpensePage.IsFieldInvalid | apps/app/src/components/Pages/CreateExpense.tsx:78-92 | no error before a submit or a touch of the field; then a blank required field, or a blank project for a project expense |
| CreateExpense.CreateExpensePage.SubmittableShowsNoErrors | apps/app/src/components/Pages/CreateExpense.tsx:78-109 | a submittable form, with select values, shows no field error |
| CreateExpense.CreateExpensePage.OnChange | apps/app/src/components/Pages/CreateExpense.tsx:68-70 | sets one field and leaves the touched set and the submitted flag alone |
| CreateExpense.CreateExpensePage.MarkTouched | apps/app/src/components/Pages/CreateExpense.tsx:72-74 | adds the field to the touched set and changes nothing else |
| CreateExpense.CreateExpensePage.OnAssociationChange | apps/app/src/components/Pages/CreateExpense.tsx:177-182 | sets the association and clears the project when switching to "other"; the other fields are kept |
| CreateExpense.CreateExpensePage.OnSubmit | apps/app/src/components/Pages/CreateExpense.tsx:123-154 | marks the form submitted. Nothing is sent unless the form can be created, and it throws "User not authenticated" without a user. Otherwise it sends the payload |
| CreateProject.With | apps/app/src/components/Pages/CreateProject.tsx:46-48 | the changed field takes the value and every other field is kept |
| CreateProject.OrUndefined | apps/app/src/components/Pages/CreateProject.tsx:73-77 | `x \|\| undefined` leaves out exactly the empty string |
| CreateProject.BuildPayload | apps/app/src/components/Pages/CreateProject.tsx:62-91 | the payload carries the required fields as typed. An empty description or e-mail is left out, and an empty status becomes "planning". A budget is sent exactly when the amount is not blank |
| CreateProject.PayloadStatusNeverEmpty | apps/app/src/components/Pages/CreateProject.tsx:74 | a sent status is never empty |
| CreateProject.CreateProjectPage.OnChange | apps/app/src/components/Pages/CreateProject.tsx:46-48 | replaces one field of the form |
| CreateProject.CreateProjectPage.OnSubmit | apps/app/src/components/Pages/CreateProject.tsx:62-91 | throws "User not authenticated" without a user, otherwise sends the payload; it does not consult `canCreate` |
| ExpenseDetails.ToForm | apps/app/src/components/Pages/ExpenseDetails.tsx:77-83 | each field as text, with "" (and "USD" for the currency) where the expense has none |
| ExpenseDetails.ToUpdatedExpense | apps/app/src/components/Pages/ExpenseDetails.tsx:85-92 | the five form fields replace the expense's, and every other field is kept |
| ExpenseDetails.SavedFormReloads | apps/app/src/components/Pages/ExpenseDetails.tsx:77-92 | when number and date text round-trip through the runtime, a saved form reloads unchanged |
| ExpenseDetails.AssociationLabel | apps/app/src/components/Pages/ExpenseDetails.tsx:56-67 | "Other" without allocations, "Project: id" for one, the dictionary label or "Multiple projects (n)" for more |
| ExpenseDetails.SingleProjectLabelEndsWithId | apps/app/src/components/Pages/ExpenseDetails.tsx:56-67 | a single-project label ends with the project's ID |
| ExpenseDetails.ExpenseDetailsPage.SaveEnabled | apps/app/src/components/Pages/ExpenseDetails.tsx:234 | save is enabled exactly when the form differs from the expense, passes the field checks and no update is pending |
| ExpenseDetails.ExpenseDetailsPage.StartEdit | apps/app/src/components/Pages/ExpenseDetails.tsx:132-136 | fills the form from the expense and starts editing; the fresh form cannot be saved |
| ExpenseDetails.ExpenseDetailsPage.CancelEdit | apps/app/src/components/Pages/ExpenseDetails.tsx:138-141 | stops editing and discards the form |
| ExpenseDetails.ExpenseDetailsPage.SaveEdit | apps/app/src/components/Pages/ExpenseDetails.tsx:143-154 | sends the rebuilt expense when there is an expense and a form; editing ends only when the update succeeds |
| ExpenseDetails.ExpenseDetailsPage.OnDelete | apps/app/src/components/Pages/ExpenseDetails.tsx:156-171 | deletes exactly when there is a route ID and the user confirms |
| ProjectDetails.ToForm | apps/app/src/components/Pages/ProjectDetails.tsx:42-51 | each field, or "" where the project has none |
| ProjectDetails.ToUpdatedProject | apps/app/src/components/Pages/ProjectDetails.tsx:53-62 | the seven form fields replace the project's, with an empty status left unset, and every other field is kept |
| ProjectDetails.SavedFormReloads | apps/app/src/components/Pages/ProjectDetails.tsx:42-62 | a saved form reloads unchanged, for every project |
| ProjectDetails.UntouchedFormKeepsProject | apps/app/src/components/Pages/ProjectDetails.tsx:42-62 | saving the untouched form of a fully filled project changes nothing |
| ProjectDetails.ProjectDetailsPage.SaveEnabled | apps/app/src/components/Pages/ProjectDetails.tsx:64-68 | save is enabled exactly when a form exists, differs from the project's and no update is pending |
| ProjectDetails.ProjectDetailsPage.StartEdit | apps/app/src/components/Pages/ProjectDetails.tsx:70-74 | fills the form from the project and starts editing; the fresh form cannot be saved |
| ProjectDetails.ProjectDetailsPage.CancelEdit | apps/app/src/components/Pages/ProjectDetails.tsx:76-79 | stops editing and discards the form, so nothing can be saved |
| ProjectDetails.ProjectDetailsPage.SaveEdit | apps/app/src/components/Pages/ProjectDetails.tsx:81-94 | sends the rebuilt project, whose form is the edited one; editing ends only when the update succeeds |
| ProjectDetails.ProjectDetailsPage.OnDelete | apps/app/src/components/Pages/ProjectDetails.tsx:96-112 | deletes exactly when there is a route ID and the user confirms |
| LoginPage.StrictEmailHasOneAt | apps/app/src/components/Pages/LoginPage.tsx:25 | an address the form accepts has exactly one `@` |
| LoginPage.StrictImpliesLoose | apps/app/src/components/Pages/LoginPage.tsx:25 | every address the form accepts also passes the server's e-mail rule |
| LoginPage.LooseButNotStrict | apps/core/src/validators/user.validator.ts:13 | the server's unanchored rule accepts "a b@c.d", which the form refuses |
| LoginPage.EmailError | apps/app/src/components/Pages/LoginPage.tsx:23-27 | no error exactly for a strictly shaped address; "Email is required" for "", "Invalid email format" otherwise |
| LoginPage.PasswordError | apps/app/src/components/Pages/LoginPage.tsx:29-33 | no error exactly from six UTF-16 code units on; "Password is required" for "", the length message otherwise |
| LoginPage.FormValidIff | apps/app/src/components/Pages/LoginPage.tsx:20-37 | the form passes exactly when the address is strictly shaped and the password has at least six UTF-16 code units |
| LoginPage.ValidFormMeetsServerRules | apps/app/src/components/Pages/LoginPage.tsx:20-37 | a form that passes also meets the server's e-mail and password rules |
| LoginPage.FormMessagesNonEmpty | apps/app/src/components/Pages/LoginPage.tsx:20-37 | every field message the form records is non-empty, so typing clears it |
| LoginPage.LoginForm.ValidateForm | apps/app/src/components/Pages/LoginPage.tsx:20-37 | records the errors of the form and answers whether there are none (the copy in pages/LoginPage.tsx:22-39 is the same) |
| LoginPage.LoginForm.HandleSubmit | apps/app/src/components/Pages/LoginPage.tsx:39-56 | an invalid form sends nothing. A valid one sends the e-mail and password. Success goes to the dashboard; failure shows the message, or "Login failed. Please try again." when it is empty (the copy in pages/LoginPage.tsx:41-58 is the same) |
| LoginPage.LoginForm.OnEmailChange | apps/app/src/components/Pages/LoginPage.tsx:81-83 | sets the e-mail and clears its error, keeping the others |
| LoginPage.LoginForm.OnPasswordChange | apps/app/src/components/Pages/LoginPage.tsx:100-103 | sets the password and clears its error, keeping the others |

## Left out

- `getExpensesByProjectId` (expense.model.ts:54-58) queries a path that is not in the expense schema. What it returns depends on the Mongoose `strictQuery` setting: every expense, or the expenses that carry that raw field. That setting is not part of this model, so the query is left out.
- Concurrency: each operation is one atomic step. The atomicity of `$inc` and interleaved requests are not modelled.
- bcrypt salts and cost, and JWT signing internals and expiry, are outside the model. Hashing, comparing, signing and verifying are parameters.
- Result order of `find()` is not modelled. Lists are sets of documents.
- Timestamps (`createdAt`, `updatedAt`) and the ObjectId generator are not modelled. A database key is a counter owned by the table.
- UserModel.UserTable.DeleteUser: the cast error for a malformed ObjectId string is not modelled. The key is a number.
- Mongoose type casting of request values is not modelled. Register and login read the e-mail as a string, so an undefined or non-string e-mail is not modelled.
- AuthController.Login: the password is a string. A body without a string password reaches bcrypt's compare with `undefined` (auth.controller.ts:57, 64-67), which throws, and the request goes to `next(err)` (auth.controller.ts:82-84). That path is not modelled.
- Counter.Offset, Counter.WidgetId, ConfigEnv.Get, ConfigEnv.GetNumber, ConfigEnv.GetBoolean, ConfigEnv.Has: lookups on plain JavaScript objects (`DEFAULT_PREFIX[modelName]`, `this.env[key]`) also find members inherited from `Object.prototype`, such as `constructor` or `toString`. The model treats those keys as absent. No caller uses such a key.
- UserModel.ApplyPatch, ExpenseModel.ApplyPatch, IncomeModel.ApplyPatch: a `_id` in an update body, and paths the schemas do not declare, are not modelled. The database key never changes in the model.
- JavaScript's `Number()`, number-to-text, date parsing and `Infinity` are abstract runtime functions. Amounts are reals or NaN.
- `\s` and `trim()` use the ASCII white space plus no-break space and BOM. The other Unicode space characters are not modelled. `toLowerCase` is modelled on A-Z only.
- The singletons (`CounterService.instance`, `EnvConfig.instance`, `JwtService.getInstance()`) are single values passed in.
- AuthController.Register, AuthController.Login: constructing the JWT service is assumed to succeed. A missing `JWT_SECRET` makes `JwtService.getInstance()` throw (jwt.ts:16-17); in `register` that happens after `createUser` has saved the user (auth.controller.ts:31-43), leaving a stored user and a `next(err)` reply. That path is not modelled.
- UserModel.UserTable.ListUsers, UserModel.UserTable.GetUserByEmail, UserModel.UserTable.GetUserByInternalId, UserModel.UserTable.UpdateUserInternalId: the schema's `select: false` on `password` (user.model.ts:30) is not modelled. In the source, `find()`, `findOne()` and the document `findOneAndUpdate` returns come back without `password`, and only `validatePassword` selects it back. In the model these results carry the stored hash. No modelled caller reads it: replies serialise through `Serialize`, which drops it.
- The configuration exceptions are `Failure` results. The `app`, `NODE_ENV` and `PORT` accessors read the fields of the built value.
- React rendering, hooks, query caching and navigation are not modelled. Local storage is the stored text passed to `GetAuthUserId`.
- The `isDirty` comparison by `JSON.stringify` is modelled as structural equality of the form records.
- ExpenseDetails.ExpenseDetailsPage.SaveEnabled: `isDirty` (ExpenseDetails.tsx:95-115) builds its comparison form inline. The model uses `ToForm` for it, since the two mappings are the same.
- CreateExpense.SubmittableFormPassesSchema: the payload's `projectAllocations` is not a path of the expense schema, so the server drops it. The lemma is about the schema fields only.
- The controllers, routes and services other than the auth controller and `UserService.validatePassword` are not part of this model. This includes the project model and its statics.
- The income controller's delete handler reads `params.incomeId` while its route binds `:internalId`. The controller is not part of this model, so `IncomeModel.IncomeTable.DeleteIncome` models the model-level delete only.
- Internationalised labels are parameters (`Option<string>` where the dictionary may lack an entry). The language toggle is not modelled.

## Findings

| source | as written | input that shows it | evidently intended | confidence | as-written member | corrected member |
|---|---|---|---|---|---|---|
| apps/core/src/models/user.model.ts:93-95 | the update hashes the password only when `data.password` is truthy, so a supplied empty string is written to the document unhashed; no validator guards the update route | `updateUserInternalId(id, {password: ""})` stores `password: ""`, which no bcrypt hash equals. With a bcrypt whose compare rejects "" as a hash (expected of bcryptjs, which rejects any hash that is not 60 characters long), no login for that user can succeed (`AuthController.EmptyStoredPasswordBlocksLogin`) | every supplied password is stored hashed, keeping the invariant that stored passwords are hashes | not executed | UserModel.EmptyPasswordStoredUnhashed | UserModel.CorrectedApplyPatch |

The user table runs the update as written (`UserModel.ApplyPatch`), so its
invariant admits a stored "" beside the hashes. The corrected update is
`UserModel.CorrectedApplyPatch`, built on `UserModel.StoredPassword`; it keeps
every stored password a hash.
