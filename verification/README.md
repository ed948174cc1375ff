# Personal-finance assistant: a Dafny model of its core

The application keeps one financial document per user, with income, expenses,
assets, liabilities, credit score, goals, risk profile, tax and emergency
fund. It shows that document on several frontend screens and lets the user
ask a hosted language model for advice about it.

This project models the parts of the application whose behaviour can be
stated exactly:

- **Backend.**
  - The document schemas: required fields, closed enumerations, defaults and timestamps.
  - The account controllers: sign-up, sign-in, sign-out, the logged-in check, and "who am I".
  - The `isAuthenticated` gate.
  - The two financial-data controllers.
  - The `/chat_with_ai` route: its guard chain, the financial summary it renders, its net-worth `reduce`, and the order of its writes.
  - The assistant gateway `ask`: template choice, request shape and reply fallback.
- **Frontend.**
  - The totals on the overview, dashboard, assets, liabilities and loans screens.
  - The `formatINR`, `formatDate` and stat-card display rules.
  - The data-entry form's state updaters and remove controls.
  - The chat panel's `handleSend`.

Stateful code is imperative Dafny:

- The document collections are one `Store.Db` class with sequence fields.
- The controllers that write, and the route, are methods that modify it.
- The gate works on an `Exchange` object: `req.user`, the response, and the number of `next()` calls.
- The form state is a `FinancialForm.Form` object.
- The chat panel is a `ChatPanel.Panel` object.

Expressions (sums, rendering, templates, schema checks) are functions. The
properties the code promises are lemmas about those functions.

JavaScript behaviour is written out:

- A scalar field is a `Records.Scalar`: `undefined`, `null` or a value. A group, a list or an id that the code only tests for truthiness or with `?.` is an `Option`.
- `sum + undefined` is `NaN` and `sum + null` is `sum` (`Sums.Total`, `Sums.Lift`).
- `x || 0`, `x ?? y` and destructuring defaults are explicit.
- `${undefined}` and `${null}` render as the texts `undefined` and `null`.
- `password.length` counts UTF-16 code units (`Auth.Utf16Length`).
- The document layer's `required` refuses `undefined`, `null` and, for text, the empty string. Its `enum` check skips only `undefined`, so a `null` outside the list is refused.
- The document layer's defaults for nested groups and arrays are `FinancialSchema.Hydrate`.

Outside effects are parameters:

- The clock is a parameter. The chat route reads it once in the gate and once per document it creates (`ChatRoute.Clock`), so the assistant's reply can be stamped later than the user's message.
- Password hashing and comparison are functions.
- The locale formatters are functions.
- The markdown renderer is a function.
- The hosted model is a function from the request to its answer. The request carries the prompt as the chosen template and what fills it (`AiService.Prompt`). `AiService.PromptText` gives the exact characters sent.

JSON Web Tokens are an ideal signature scheme. A token verifies exactly under the key it was signed with, until it expires.

Three behaviours of the code are stated as they are written.

- Every create appends a new financial document. `findOne({ userId })` has no sort, and the model reads it as the first match in insertion order. Under that reading a user's later documents are stored but never read back: `FinancialController.SecondCreateNeverRead`.
- The chat route never takes the generic "no financial data" template. Its summary always opens with a line break, so it never equals the sentinel: `ChatRoute.RouteAsksPersonally`.
- The controllers sign with `JWT_SECRET || 'fallback_secret'`, but the gate verifies with `JWT_SECRET` alone. With the variable unset, every token the controllers issue is refused by the gate: `Gate.FallbackTokenBlocked`.

## Model

| member | source | states |
|---|---|---|
| Records.OrEmpty | Frontend/app/src/pages/AssetsPage.jsx:27-31 | a destructuring default: an absent list reads as the empty list, a present one as itself |
| Sums.Lift | Backend/routes/chat.routes.js:109-111 | an amount used in `+` is NaN exactly when it is undefined; a null amount adds 0, a number adds itself |
| Sums.StrictSum | Frontend/app/src/components/Loan.jsx:30 | `reduce((sum, x) => sum + x.amount, 0)` is NaN if and only if some item's amount is undefined |
| Sums.DefaultedSum | Frontend/app/src/components/Setting.jsx:55-58 | `reduce((sum, x) => sum + (x.amount \|\| 0), 0)` is 0 when no item carries a number |
| Sums.StrictMatchesDefaulted | Frontend/app/src/components/Setting.jsx:54-76 | when no amount is undefined the strict total is a number and equals the defensive total |
| Sums.DefaultedSumAppend | Frontend/app/src/components/Setting.jsx:55-58 | the defensive total of a concatenation is the sum of the two totals |
| Sums.MissingAmountContributesZero | Frontend/app/src/components/Setting.jsx:56 | an item whose amount is undefined or null, inserted anywhere, leaves the defensive total unchanged |
| Sums.DefaultedSumPermutation | Frontend/app/src/components/Setting.jsx:55-58 | the defensive total of any reordering of the items is the same |
| Sums.StrictSumPermutation | Frontend/app/src/components/Loan.jsx:30 | the strict total (number or NaN) of any reordering of the items is the same |
| Sums.NullAmountKeepsStrictSum | Backend/routes/chat.routes.js:121-123 | an item whose amount is null, inserted anywhere, leaves the strict total (number or NaN) unchanged |
| FinancialSchema.Hydrate | Backend/models/financial_data.models.js:5-99 | a built document has every nested group and every array the schema declares, and keeps its owner |
| FinancialSchema.HydrateIdempotent | Backend/models/financial_data.models.js:5-99 | building an already built document changes nothing |
| FinancialSchema.HydrateKeepsValidity | Backend/models/financial_data.models.js:5-99 | the filled-in defaults never change whether a document passes validation, in either direction |
| FinancialSchema.MissingUserIdInvalid | Backend/models/financial_data.models.js:6-10 | a document without `userId` is rejected |
| FinancialSchema.RequiredNumbers | Backend/models/financial_data.models.js:11-70 | a valid document has a number, neither undefined nor null, for `income.monthly`, `expenses.monthly` and `creditScore.value` |
| FinancialSchema.ClosedEnumerations | Backend/models/financial_data.models.js:14-85 | in a valid document every set type, risk, goal type, priority, risk-profile field and tax slab that is not undefined is one its enumeration lists |
| FinancialSchema.NamedBalances | Backend/models/financial_data.models.js:29-48 | in a valid document every bank account and every property has a non-empty name and a balance |
| ChatSchema.NewConversation | Backend/models/converstation.models.js:3-16 | a stored conversation carries the given owner and non-empty title, and equal `createdAt`/`updatedAt` timestamps |
| ChatSchema.NewMessage | Backend/models/message.models.js:3-34 | a stored message carries the given conversation, optional user, role `user` or `ai`, non-empty content, the given `voiceUrl` (null when none was given), and equal timestamps |
| ChatSchema.AiMessageNeedsNoUser | Backend/models/message.models.js:11-15 | an `ai` message with a conversation and content but no `userId` passes the schema |
| ChatSchema.RoleOutsideEnumRejected | Backend/models/message.models.js:17-21 | any role other than `user` and `ai` is rejected |
| ChatSchema.DefineConversation | Backend/models/converstation.models.js:18-20 | an already registered Conversation model is returned unchanged; otherwise the schema is registered under that name |
| ChatSchema.DefineConversationIdempotent | Backend/models/converstation.models.js:18-20 | defining the Conversation model twice gives what defining it once gives |
| ChatSchema.DefineMessage | Backend/models/message.models.js:36 | registering the Message model fails exactly when the name is already taken |
| Store.Public | Backend/controller/auth.controller.js:46 | the user a response carries has the stored id, name and email and no password |
| Store.FindUserByEmail | Backend/controller/auth.controller.js:30 | finds a stored user with exactly that email, and finds none if and only if no stored user has it |
| Store.FindUserById | Backend/controller/financial.controller.js:13 | finds a stored user with that id, and finds none if and only if no stored user has it |
| Store.FirstRecordOf | Backend/controller/financial.controller.js:48 | the position of a document owned by the user with no earlier one, or none if and only if the user owns no document |
| Store.FindRecord | Backend/controller/financial.controller.js:48 | finds a stored document owned by the user, and finds none if and only if the user owns none |
| Store.FindRecordAppend | Backend/controller/financial.controller.js:48 | once a user has a document, appending any document leaves what the lookup finds unchanged |
| Store.FindFirstRecord | Backend/controller/financial.controller.js:48 | the first document stored for a user who had none is the one the lookup finds |
| Store.FindNewUserByEmail | Backend/controller/auth.controller.js:30-37 | a user added under an unregistered email is the one the email lookup finds |
| Store.Db.AddUser | Backend/controller/auth.controller.js:36-37 | appends exactly the new user with a fresh id; the other collections are unchanged and the store stays valid (unique ids and emails) |
| Store.Db.AddRecord | Backend/controller/financial.controller.js:28 | appends exactly the document; everything else is unchanged and the store stays valid |
| Store.Db.AddConversation | Backend/routes/chat.routes.js:147-150 | appends exactly the new conversation with a fresh id; existing messages still point at stored conversations |
| Store.Db.AddMessage | Backend/routes/chat.routes.js:153-158 | appends exactly the new message with a fresh id under a stored conversation; everything else is unchanged |
| Jwt.Sign | Backend/controller/auth.controller.js:39-41 | the token carries the claims, the signing key, and an expiry one day after signing |
| Jwt.Verify | Backend/middleware/isAuthenticated.middleware.js:11 | gives the claims if and only if the token was signed with this non-empty secret and has not expired |
| Jwt.SignedTokenVerifies | Backend/controller/auth.controller.js:39-41 | a signed token verifies under its own secret if and only if less than one day has passed |
| Jwt.NoSecretRejects | Backend/middleware/isAuthenticated.middleware.js:11 | without a secret every token is rejected |
| Http.ApplyCookie | Backend/controller/auth.controller.js:82 | the browser's cookie after a response: replaced when set, gone when cleared, as it was otherwise |
| Auth.ControllerSecret | Backend/controller/auth.controller.js:8 | the controllers' secret is never empty: the environment's when it is set and non-empty, `fallback_secret` otherwise |
| Auth.Options | Backend/controller/auth.controller.js:10-16 | the cookie is HTTP-only and site-wide, secure if and only if in production, `sameSite` `none` exactly when secure and `lax` otherwise, and lives one day |
| Auth.CookieMatchesTokenLifetime | Backend/controller/auth.controller.js:15 | the cookie's `maxAge` is the token's lifetime in milliseconds |
| Auth.SessionCookie | Backend/controller/auth.controller.js:39-43 | the cookie set after sign-up or sign-in holds a token that verifies under the controllers' secret to the user's id and email |
| Auth.Utf16Length | Backend/controller/auth.controller.js:23 | `String.length`: at least the number of characters and at most twice it, and exactly it when no character lies outside the Basic Multilingual Plane |
| Auth.AstralPasswordLength | Backend/controller/auth.controller.js:23 | three emoji are three characters but six code units, so they meet the six-character minimum |
| Auth.Signup | Backend/controller/auth.controller.js:18-52 | 400 for a missing field, then 400 for a password under 6 UTF-16 code units, then 409 for a registered email, each writing nothing; otherwise exactly one user is added holding the hash of the password, and 201 carries only id, name and email with a session cookie |
| Auth.Signin | Backend/controller/auth.controller.js:54-79 | 400 for a missing field; the same 401 for an unknown email and a wrong password; otherwise 200 with the found user's public part and a session cookie |
| Auth.SignupThenSignin | Backend/controller/auth.controller.js:18-79 | signing in with the password just registered succeeds, as the user just created |
| Auth.Signout | Backend/controller/auth.controller.js:81-84 | always 200 and clears the cookie with the session options |
| Auth.SignoutIdempotent | Backend/controller/auth.controller.js:81-84 | signing out twice leaves the browser as signing out once does: without a cookie |
| Auth.CheckAuth | Backend/controller/auth.controller.js:86-96 | always 200 and no cookie change; logged in if and only if a token is present and verifies under the controllers' secret |
| Auth.SessionChecksForOneDay | Backend/controller/auth.controller.js:54-96 | after a successful sign-in the check reports logged in if and only if less than one day has passed |
| Auth.SignedOutIsLoggedOut | Backend/controller/auth.controller.js:81-96 | after signing out the check reports not logged in, whatever the cookie was |
| Auth.GetUser | Backend/controller/auth.controller.js:98-107 | 401 when the token is missing or fails to verify; otherwise 200 with the public part of the user the token names, or no user when that user is gone |
| Gate.IsAuthenticated | Backend/middleware/isAuthenticated.middleware.js:3-17 | 401 `Unauthorized` without a token, 401 `Invalid token` when it fails to verify, otherwise `req.user` is the decoded claims and `next` runs once with no response; exactly one of a 401 and `next` happens |
| Gate.FallbackTokenBlocked | Backend/middleware/isAuthenticated.middleware.js:11 | with `JWT_SECRET` unset or empty, a token the controllers sign with the fallback secret is answered 401 `Invalid token` and `next` never runs |
| Gate.GateAgreesWithControllers | Backend/middleware/isAuthenticated.middleware.js:11 | with `JWT_SECRET` set and non-empty, the gate and the controllers accept exactly the same tokens |
| FinancialController.Built | Backend/controller/financial.controller.js:19-26 | the built document is owned by the query's user; goals, risk profile, tax and emergency fund are at their defaults whatever the body holds |
| FinancialController.BuiltIgnoresOtherFields | Backend/controller/financial.controller.js:19-26 | two bodies that agree on assets, liabilities, income, expenses and creditScore build the same document |
| FinancialController.BuiltValidity | Backend/controller/financial.controller.js:19-28 | the built document passes validation if and only if the five copied groups do |
| FinancialController.CreateFinancialData | Backend/controller/financial.controller.js:4-38 | 400 without a user id, 404 for an unknown user, 500 for a document that fails validation, each storing nothing; otherwise exactly the built document is appended, even beside an earlier one, and 201 returns it |
| FinancialController.GetFinancialData | Backend/controller/financial.controller.js:40-59 | 400 without an id; 404 if and only if the user owns no document; otherwise 200 with a stored document owned by that user |
| FinancialController.CreateThenGet | Backend/controller/financial.controller.js:4-59 | a user's first create is what get returns afterwards |
| FinancialController.SecondCreateNeverRead | Backend/controller/financial.controller.js:4-59 | once a user has a document, a further create does not change what get returns |
| Summary.NatToString | Backend/routes/chat.routes.js:47 | an amount renders as a non-empty string of decimal digits |
| Summary.NatToStringReadsBack | Backend/routes/chat.routes.js:47 | the rendered digits read back as the same amount: rendering loses nothing |
| Summary.FirstNewline | Backend/routes/chat.routes.js:53 | the position of the first line break in a text that has one |
| Summary.SplitJoinLines | Backend/routes/chat.routes.js:51-53 | joining single-line texts with `\n` and splitting the result gives back exactly those lines, in order |
| Summary.RenderListLines | Backend/routes/chat.routes.js:51-99 | a list section whose rendered lines hold no line break splits into exactly one line per item, the item's line, in input order |
| Summary.SourceLinesSplit | Backend/routes/chat.routes.js:51-53 | the income-sources section splits into exactly one line per source, in order, when no source's name or type holds a line break |
| Summary.NullRentalIncomeShown | Backend/routes/chat.routes.js:80 | a property whose rental income is null renders a line ending `₹null/month)` |
| Summary.ChatNetWorth | Backend/routes/chat.routes.js:108-129 | the summary's net worth is NaN if and only if some balance, value or outstanding amount is undefined, and 0 when all five lists are empty |
| Summary.RenderSummary | Backend/routes/chat.routes.js:43-143 | the summary is longer than its heading and opens with a line break and `### Financial Overview ###` |
| AiService.TemplatesDiffer | Backend/AI/ai.service.js:10-45 | the generic and the personalised prompt never coincide, whatever the question and summary |
| AiService.GenericIffSentinel | Backend/AI/ai.service.js:10-12 | the generic template is chosen if and only if the summary is exactly `No financial data provided by user` |
| AiService.GenericEmbedsQuestion | Backend/AI/ai.service.js:12-20 | the generic prompt holds the question verbatim, between double quotes |
| AiService.PersonalEmbedsSummaryThenQuestion | Backend/AI/ai.service.js:35-38 | the personalised prompt holds the summary verbatim, then the question verbatim between double quotes |
| AiService.ChoosePrompt | Backend/AI/ai.service.js:10-12 | the generic template, filled with the question, exactly when the summary is the sentinel; otherwise the personalised one, filled with the question and the summary |
| AiService.RequestFor | Backend/AI/ai.service.js:47-55 | the request has exactly one message, role `user`, whose content is the prompt the sentinel test selects, and model `llama3-70b-8192` |
| AiService.ReplyText | Backend/AI/ai.service.js:57 | the reply is never empty: the first choice's content when it is non-empty, `No response from AI` otherwise |
| AiService.NoChoicesFallback | Backend/AI/ai.service.js:57 | a completion without choices gives `No response from AI` |
| AiService.Ask | Backend/AI/ai.service.js:9-58 | a reply exactly when the upstream answers; the reply is non-empty and is the reply text of that answer |
| ChatRoute.SummaryIsNotSentinel | Backend/routes/chat.routes.js:43-44 | a rendered summary is never the no-data sentinel |
| ChatRoute.RouteAsksPersonally | Backend/routes/chat.routes.js:161 | the route's request to the assistant always uses the personalised template, carrying its summary |
| ChatRoute.Guard | Backend/routes/chat.routes.js:19-39 | 400 `Please login first` without a user id, then 404 `User not found`, then 400 `Please enter a message` for an empty message, then 404 `Financial data not found`; no refusal if and only if the user exists, the message is non-empty and the user has a document |
| ChatRoute.TakeTurn | Backend/routes/chat.routes.js:146-177 | a conversation titled with the message; the `user` message with the user id, then (when the assistant answers) the `ai` reply without one, each valid, with fresh ids in order; each document stamped with its own clock reading; 500 `Something went wrong` when the assistant fails, otherwise 200 with the conversation and both messages |
| ChatRoute.Converse | Backend/routes/chat.routes.js:146-177 | the store gains exactly the turn's conversation and its stored messages, in that order, users and documents are untouched, and the response is the turn's |
| ChatRoute.Handled | Backend/routes/chat.routes.js:16-178 | what the handler writes and answers: a refused request writes nothing and is answered with the refusal; otherwise one conversation and one or two messages are written |
| ChatRoute.HandledTakesTurn | Backend/routes/chat.routes.js:34-177 | past the guards: the conversation is titled with the message and owned by the user; the user's message, then the reply exactly when the assistant answers the personalised request built from the summary of the user's document; fresh ids in order; each document stamped with its own clock reading; 200 with the conversation and both messages, or 500 `Something went wrong` |
| ChatRoute.ChatWithAi | Backend/routes/chat.routes.js:16-178 | the store gains exactly the conversations and messages `Handled` gives, users and documents are untouched, and the answer is its response |
| ChatRoute.ChatRoute | Backend/routes/chat.routes.js:16 | the cookie is untouched; a request the gate turns away is answered 401 and writes nothing; one it lets through has `req.user` set to the decoded claims, and the store gains and the route answers exactly what `Handled` gives for the body's user id and message |
| Money.FormatInr | Frontend/app/src/pages/AssetsPage.jsx:6-7 | never empty: `₹0` for an absent amount, the locale's text otherwise (or `₹0` if that text is empty) |
| Money.Shown | Frontend/app/src/components/Loan.jsx:6-8 | an item's amount handed to the formatter is absent exactly when the item's amount is undefined or null |
| Setting.NetWorth | Frontend/app/src/components/Setting.jsx:51-79 | 0 without data; otherwise total assets minus total liabilities; 0 when both groups are missing |
| Setting.NetWorthMatchesChat | Frontend/app/src/components/Setting.jsx:51-79 | with no amount undefined, the overview's net worth equals the chat summary's |
| Setting.NetWorthIgnoresDefaults | Frontend/app/src/components/Setting.jsx:54-76 | the defaults the document layer fills in do not change the net worth |
| Setting.BalancelessAccountCountsZero | Frontend/app/src/components/Setting.jsx:56 | a bank account whose balance is undefined or null, added anywhere, does not change the net worth |
| Setting.FormatDate | Frontend/app/src/components/Setting.jsx:41-49 | `N/A` for an absent or empty date, the locale's rendering otherwise |
| Setting.StatCardText | Frontend/app/src/components/Setting.jsx:96 | any number is formatted as currency (NaN as 0); a non-empty string is shown as is; an empty or missing value shows `N/A` |
| Setting.ZeroIsFormatted | Frontend/app/src/components/Setting.jsx:96 | a zero amount is formatted, not shown as `N/A` |
| Setting.SettingScreen | Frontend/app/src/components/Setting.jsx:111-132 | the no-data screen if and only if there is no data; otherwise the overview with assets minus liabilities |
| Dashboard.MonthlyIncome | Frontend/app/src/components/DashBoard.jsx:32 | the monthly income, 0 when the group is missing or the figure is undefined or null |
| Dashboard.MonthlyExpenses | Frontend/app/src/components/DashBoard.jsx:33 | the monthly expenses, 0 when the group is missing or the figure is undefined or null |
| Dashboard.NetSavings | Frontend/app/src/components/DashBoard.jsx:34 | net savings are negative if and only if expenses exceed income |
| Dashboard.Trajectory | Frontend/app/src/components/DashBoard.jsx:37-44 | exactly six points, the first the savings, the last six times the savings, consecutive points differing by the savings |
| Dashboard.TrajectoryMonotone | Frontend/app/src/components/DashBoard.jsx:42 | the trajectory rises strictly with positive savings and falls strictly with negative savings |
| Dashboard.DashboardView | Frontend/app/src/components/DashBoard.jsx:18-44 | the placeholder if and only if the user or the data is missing; otherwise the figures, with net savings income minus expenses and the trajectory built from them |
| Pages.AssetsPage | Frontend/app/src/pages/AssetsPage.jsx:13-38 | the placeholder if and only if there is no data; each total is NaN exactly when an item of its list has an undefined amount; all three are 0 without an assets group |
| Pages.AssetTotalsMatchOverview | Frontend/app/src/pages/AssetsPage.jsx:33-38 | with no amount undefined, the three totals add up to the overview's total assets |
| Pages.LiabilitiesPage | Frontend/app/src/components/Liabilities.jsx:13-33 | the placeholder if and only if there is no data; each total is NaN exactly when an item has an undefined amount; both are 0 without a liabilities group |
| Pages.LiabilityTotalsMatchOverview | Frontend/app/src/components/Liabilities.jsx:29-33 | with no amount undefined, the two totals add up to the overview's total liabilities |
| Pages.LoanPage | Frontend/app/src/components/Loan.jsx:14-30 | no total if and only if there is no data; 0 without a liabilities group; NaN exactly when a loan's balance is undefined |
| Pages.LoanTotalsAgree | Frontend/app/src/components/Loan.jsx:30 | the loans page and the liabilities page show the same loan total |
| Pages.LoanTotalOrderFree | Frontend/app/src/components/Loan.jsx:30 | reordering the loans leaves the loan total unchanged |
| FinancialForm.BlankEntry | Frontend/app/src/components/FinancialDataForm.jsx:27 | a blank entry has exactly the list's keys, each empty |
| FinancialForm.InitialListsHoldOneBlankEntry | Frontend/app/src/components/FinancialDataForm.jsx:23-74 | the initial state holds exactly one blank entry in each of the seven lists |
| FinancialForm.Merge | Frontend/app/src/components/FinancialDataForm.jsx:83 | the patch's keys are overwritten with its values, every other key of the entry is kept |
| FinancialForm.UpdateAt | Frontend/app/src/components/FinancialDataForm.jsx:82-84 | same length; only the entry at the index changes, to itself merged with the patch; an out-of-range index changes nothing |
| FinancialForm.RemoveAt | Frontend/app/src/components/FinancialDataForm.jsx:113 | drops exactly the entry at the index (one shorter, the same multiset less that entry, the rest in order); an out-of-range index changes nothing |
| FinancialForm.AddThenRemove | Frontend/app/src/components/FinancialDataForm.jsx:98-116 | adding an entry and removing it at the old length gives back the list |
| FinancialForm.Form.constructor | Frontend/app/src/components/FinancialDataForm.jsx:23-74 | the form starts in the initial state, with every list non-empty |
| FinancialForm.Form.HandleChangeAt | Frontend/app/src/components/FinancialDataForm.jsx:77-86 | only the list's entry at the index changes; the list keeps its length, other fields and sections are unchanged, and non-empty lists stay non-empty |
| FinancialForm.Form.HandleChange | Frontend/app/src/components/FinancialDataForm.jsx:87-95 | sets the field, creating the section if needed; the section's keys are its old keys plus that field, and every other field and section is unchanged |
| FinancialForm.Form.AddItem | Frontend/app/src/components/FinancialDataForm.jsx:98-106 | the template is appended at the end of that list; nothing else changes |
| FinancialForm.Form.RemoveItem | Frontend/app/src/components/FinancialDataForm.jsx:108-116 | exactly the entry at the index is removed from that list; nothing else changes |
| FinancialForm.Form.ClickRemove | Frontend/app/src/components/FinancialDataForm.jsx:271-279 | the remove control acts only on lists of two or more entries, so the form never empties a list |
| FinancialForm.FormOffersRejectedValues | Frontend/app/src/components/FinancialDataForm.jsx:262-849 | for each typed list, the options the form offers that the schema's enumeration lacks |
| FinancialForm.RejectedIncomeOption | Frontend/app/src/components/FinancialDataForm.jsx:262-267 | a document with an income source typed `freelance` or `investment` fails validation |
| FinancialForm.RejectedBankOption | Frontend/app/src/components/FinancialDataForm.jsx:486-490 | a document with a bank account typed `other` fails validation |
| FinancialForm.RejectedInvestmentOption | Frontend/app/src/components/FinancialDataForm.jsx:564-570 | a document with an investment typed `Stocks` or `other` fails validation |
| FinancialForm.RejectedPropertyOption | Frontend/app/src/components/FinancialDataForm.jsx:744-748 | a document with a property typed `other` fails validation |
| FinancialForm.RejectedLoanOption | Frontend/app/src/components/FinancialDataForm.jsx:844-849 | a document with a loan typed `other` fails validation |
| ChatPanel.Rendered | Frontend/app/src/components/GroqAndLlama.jsx:64-71 | the server's messages keep their number, order and roles; only `ai` contents go through the renderer |
| ChatPanel.Arrivals | Frontend/app/src/components/GroqAndLlama.jsx:64-85 | what a finished request appends: the rendered server messages, or exactly one `ai` error message |
| ChatPanel.Outcome | Frontend/app/src/components/GroqAndLlama.jsx:55-62 | without a signed-in user the request fails; otherwise it is the server's answer for that user's id and the question |
| ChatPanel.Panel.constructor | Frontend/app/src/components/GroqAndLlama.jsx:18-20 | the panel starts with no messages, an empty box and not loading |
| ChatPanel.Panel.Type | Frontend/app/src/components/GroqAndLlama.jsx:257 | typing replaces the box's text and nothing else |
| ChatPanel.Panel.BeginSend | Frontend/app/src/components/GroqAndLlama.jsx:41-52 | a blank box or a send in flight changes nothing; otherwise the user's message is appended at once, the box is cleared, loading is set, and the typed text is what is sent |
| ChatPanel.Panel.FinishSend | Frontend/app/src/components/GroqAndLlama.jsx:73-88 | what arrived is appended after the existing messages and loading is cleared |
| ChatPanel.Panel.HandleSend | Frontend/app/src/components/GroqAndLlama.jsx:40-89 | a refused send changes nothing; otherwise the list grows by the user's message then what arrived, the box is empty and loading is cleared on success and failure alike; messages are only ever appended |
| ChatPanel.UserTextShownTwice | Frontend/app/src/components/GroqAndLlama.jsx:50-73 | when the route answers with the stored pair, the user's text appears twice in a row, followed by the rendered reply |

## Left out

- Database I/O is left out. Each collection is a sequence held in memory. The `500` answers that a failing database call produces in every controller's `catch` are not modelled. The exceptions are the validation failure of a financial document and a failing assistant call, which are both modelled.
- `findOne({ userId })` has no sort. The database promises only some matching document, and `Store.FindRecord` is read as the first match in insertion order. With one document per user the two agree.
- A nested group or list stored as `null`, rather than absent, is not modelled: groups and lists are present or absent. The document layer's cast of an empty string to `null` for a number field is not written as a function, but a stored scalar may be `null`.
- Mongoose's cast of an id string to an ObjectId is not modelled, nor its failure. Ids are natural numbers. Type casting of numbers and strings beyond `required` and `enum` is not modelled.
- The user schema (`users.models.js`) is not part of this model. Unique emails are kept by the sign-up guard and stated in `Store.Db.Valid`. The database's own unique index is not modelled.
- Password hashing is not modelled. `bcrypt.hash` is a function of the password, so the random salt and the cost factor are left out. `bcrypt.compare` is a given predicate.
- The cryptography of JSON Web Tokens is left out. Tokens are an ideal signature scheme, the clock is a parameter in seconds, and a malformed token is any unsigned text.
- Answer quality of the hosted language model is left out. The model is a function from the request to an answer or a rejection.
- Floating point is not modelled: all amounts are integers. `toLocaleString`, `toLocaleDateString` and `Intl.NumberFormat` are given functions. So are the dashboard's month labels.
- Markdown rendering in the chat panel is a given function. Message ids built from `Date.now()` and `Math.random()` are not modelled.
- The form's `handleSubmit` and the axios calls are left out. So are the auth and financial contexts, navigation, and all markup.
- Server bootstrap and routing wiring are left out. The application entry point mounts only the `/auth` router, so the chat and financial routes are not reachable in this snapshot. The model treats each handler as mounted.
- Concurrency is left out: each request runs to completion before the next. React's batching of state updates is not modelled, and `ChatPanel.Panel.HandleSend` applies its updates in program order.
- `console.log` and `console.error` output is not modelled.
- ChatPanel.IsBlank: the characters `String.prototype.trim` removes are the ECMAScript WhiteSpace and LineTerminator code points, written out one by one. They are not derived from a character database.
- AiService.Ask: the hosted model sees the prompt as its template and fillings rather than as rendered text. A model could therefore tell apart two prompts whose texts coincide. Every property proved about `Ask` holds for every such model, including those that read only the text.
