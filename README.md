# Accounting Grow: a verified model of the client core

Accounting Grow is an Android personal-finance app written in Kotlin. It talks to
a REST server that keeps transactions, categories, budgets, savings, bill
reminders, articles and the user profile. This project models the app's
sequential, deterministic layer in Dafny and proves what that layer promises.

- **The envelope rule** (`Envelope`). Every repository turns one HTTP exchange
  into a `kotlin.Result` by the same rule:
  - A thrown exception becomes the failure "Tidak dapat terhubung ke server: " followed by its message.
  - A response that is not HTTP-successful, or whose `{success, message, data}`
    envelope does not say `success == true`, fails with the server's message, or
    with a fixed fallback for that operation.
  - An accepted envelope without data is a failure ("Data … tidak valid") on a
    single-entity call, and an empty list on a list call.
  - Otherwise the DTO is mapped to the domain.

  `Single`, `Many` and `MessageOnly` state this once. Each repository operation
  (`TransactionRepository`, `ReminderRepository`, `SavingRepository`,
  `BudgetRepository`, `CategoryRepository`, `HomeRepository`,
  `ArticleRepository`, `UserRepository`, `AuthRepository`) instantiates it with
  its own constants.
- **Decoding** (`Dto` and the repositories). The server sends enumerations as
  strings, and each decoder falls back to a fixed variant:
  - transaction and category type: EXPENSE;
  - recurrence: NONE;
  - budget type and filling plan: MONTHLY.

  Every other field is copied. `Double` amounts are opaque `real`s that the
  model never computes with.
- **The credential store** (`TokenManager`). It is a class over one
  `map<string, string>`, the model of the app's SharedPreferences file.
  - Login writes both tokens and the user's id, name and e-mail.
  - Logout empties the store, whatever the server answered.
  - "Logged in" means an access token is stored.
- **Request signing** (`NetworkModule`). The OkHttp interceptor adds
  `Authorization: Bearer <token>` to every request whose path does not contain
  "/auth/", and only when a token is stored.
- **The ViewModels** (`TransactionViewModel`, `ReminderViewModel`,
  `BudgetViewModel`, `SavingViewModel`, `ProfileViewModel`, `AuthViewModel`,
  `HomeViewModel`). Each is a class whose `state` field holds the screen's
  immutable state record. Each intent is a method made of three steps, and its
  `ensures` states the whole new state:
  - the start transition;
  - the repository's outcome, which is a parameter;
  - any reload the intent triggers, whose outcome is a parameter too.
- **Screen helpers** (`HomeScreen`, `TransactionListScreen`, `ReminderScreen`,
  `BudgetScreen`, `RegisterScreen`, `AddTransactionScreen`, `SavingScreen`):
  - date cutting, the sign prefix and the filter chips;
  - month names and the budget colour band;
  - the registration form's guards;
  - the add-transaction form, with its category/type invariant;
  - the add-money dialog's amount guard.

`Wrappers` holds `Option` (Kotlin's nullable types) and `Result`. `Text` holds
the Kotlin string operations the app relies on: `isBlank`, `isDigit`/`filter`,
`contains`, and `toDoubleOrNull` on digit strings.

Two branches in the code can never run:
- The three repository error messages that the ViewModels read are never null,
  so the `?: "Login gagal"` and `?: "Registrasi gagal"` fallbacks in `AuthViewModel`
  can never apply. `AuthViewModel.Login` shows the repository's message, which
  already falls back to "Login gagal" one layer down.
- `UserRepository.logout` returns success on every path. The failure branch of
  `ProfileViewModel.logout` is therefore unreachable; it sets the same state as
  the success branch anyway.

## Model

| member | source | states |
|---|---|---|
| Envelope.ConnectionFailure | app/src/main/java/com/alduraimron/accountinggrow/data/repository/TransactionRepository.kt:77-80 | The failure message starts with the fixed connection prefix; after it comes the exception's message, or "null" when there is none. |
| Envelope.ConnectionFailureInjective | app/src/main/java/com/alduraimron/accountinggrow/data/repository/TransactionRepository.kt:79 | Two exceptions whose failures are equal had the same message: the message can be read back from the failure. |
| Envelope.BodyMessage | app/src/main/java/com/alduraimron/accountinggrow/data/repository/TransactionRepository.kt:73 | `body()?.message` is present exactly when there is a body and it carries a message, and then it is that message. |
| Envelope.BodyData | app/src/main/java/com/alduraimron/accountinggrow/data/repository/TransactionRepository.kt:39 | `body()?.data` is present exactly when there is a body and it carries data, and then it is that data. |
| Envelope.Accepted | app/src/main/java/com/alduraimron/accountinggrow/data/repository/TransactionRepository.kt:39 | `isSuccessful && body()?.success == true`: an exception, an HTTP failure or a missing body is never accepted, and an accepted response's envelope says success. |
| Envelope.Rejection | app/src/main/java/com/alduraimron/accountinggrow/data/repository/TransactionRepository.kt:72-75 | A rejected response's failure message is the server's message when present, else the operation's fallback. |
| Envelope.Single | app/src/main/java/com/alduraimron/accountinggrow/data/repository/TransactionRepository.kt:38-80 | Success exactly when the response is accepted and carries data, with the mapped data as value. An exception gives the connection failure. Accepted without data gives the "invalid data" failure. Otherwise the result is the rejection. |
| Envelope.MapSeq | app/src/main/java/com/alduraimron/accountinggrow/data/repository/TransactionRepository.kt:99 | `List.map` keeps the length, and maps each position's element. |
| Envelope.Many | app/src/main/java/com/alduraimron/accountinggrow/data/repository/TransactionRepository.kt:97-136 | A list call succeeds exactly when the response is accepted. Missing data gives an empty success; present data gives its items mapped one by one in order. Exceptions and rejections fail as in `Single`. |
| Envelope.MessageOnly | app/src/main/java/com/alduraimron/accountinggrow/data/repository/TransactionRepository.kt:145-157 | A call whose data is ignored succeeds exactly when the response is accepted, with the server's message or the fixed confirmation. It fails like `Single` otherwise. |
| Envelope.ServerMessageWins | app/src/main/java/com/alduraimron/accountinggrow/data/repository/CategoryRepository.kt:49-52 | A rejection that carries a server message fails with exactly that message, whatever the fallbacks. |
| Envelope.ExceptionsNeverSucceed | app/src/main/java/com/alduraimron/accountinggrow/data/repository/ArticleRepository.kt:41-44 | An exception always ends as a failure that starts with the connection prefix. |
| Dto.DecodeTransactionType | app/src/main/java/com/alduraimron/accountinggrow/data/remote/dto/TransactionDto.kt:38-42 | The type decodes to INCOME exactly for "INCOME", and to EXPENSE for every other string. |
| Dto.TransactionTypeRoundTrip | app/src/main/java/com/alduraimron/accountinggrow/data/remote/dto/TransactionDto.kt:38-42 | Decoding a type's name gives that type back. |
| Dto.ToCategory | app/src/main/java/com/alduraimron/accountinggrow/data/remote/dto/TransactionDto.kt:47-57 | The nested category keeps id and name and decodes its type. |
| Dto.ToCategoryIgnoresDroppedFields | app/src/main/java/com/alduraimron/accountinggrow/data/remote/dto/TransactionDto.kt:47-57 | userId and the timestamps of a category DTO do not affect the category. |
| Dto.ToOptionalCategory | app/src/main/java/com/alduraimron/accountinggrow/data/remote/dto/TransactionDto.kt:47 | An absent category stays absent; a present one is mapped. |
| Dto.ToTransaction | app/src/main/java/com/alduraimron/accountinggrow/data/remote/dto/TransactionDto.kt:33-59 | id, userId, categoryId, nominal, description, date and createdAt are copied unchanged. The type is decoded and the category mapped. |
| Dto.ToTransactionIgnoresUpdatedAt | app/src/main/java/com/alduraimron/accountinggrow/data/remote/dto/TransactionDto.kt:22-23 | Changing only the DTO's updatedAt does not change the transaction. |
| TransactionRepository.CreateTransactionBody | app/src/main/java/com/alduraimron/accountinggrow/data/repository/TransactionRepository.kt:29-35 | The body has categoryId, type, nominal and date always, and description exactly when one is given, each with the given value. |
| TransactionRepository.InlineTransaction | app/src/main/java/com/alduraimron/accountinggrow/data/repository/TransactionRepository.kt:41-65 | The mapping written out in createTransaction copies every field but the type and the category. It decodes INCOME exactly for "INCOME", and keeps a category exactly when the DTO has one, with its id, name and decoded type. |
| TransactionRepository.InlineIsToTransaction | app/src/main/java/com/alduraimron/accountinggrow/data/repository/TransactionRepository.kt:41-65 | The mapping the repository writes out in place equals `toTransaction`. |
| TransactionRepository.CreateTransaction | app/src/main/java/com/alduraimron/accountinggrow/data/repository/TransactionRepository.kt:19-81 | The envelope rule with "Data transaksi tidak valid" and "Gagal membuat transaksi". |
| TransactionRepository.GetAllTransactions | app/src/main/java/com/alduraimron/accountinggrow/data/repository/TransactionRepository.kt:83-137 | The page's transactions are mapped in order, and a missing page is an empty success. The fallback is "Gagal mengambil transaksi". |
| TransactionRepository.DeleteTransaction | app/src/main/java/com/alduraimron/accountinggrow/data/repository/TransactionRepository.kt:139-157 | Success carries the server's message or "Transaksi berhasil dihapus"; the fallback is "Gagal menghapus transaksi". |
| ReminderRepository.DecodeRecurrence | app/src/main/java/com/alduraimron/accountinggrow/data/repository/ReminderRepository.kt:31-37 | "DAILY", "WEEKLY" and "MONTHLY" decode to their variants, and every other string to NONE. |
| ReminderRepository.RecurrenceRoundTrip | app/src/main/java/com/alduraimron/accountinggrow/data/repository/ReminderRepository.kt:31-37 | Decoding a recurrence's name gives it back. |
| ReminderRepository.ToReminder | app/src/main/java/com/alduraimron/accountinggrow/data/repository/ReminderRepository.kt:26-42 | Every field but the recurrence is copied unchanged; the recurrence is decoded. |
| ReminderRepository.GetReminders | app/src/main/java/com/alduraimron/accountinggrow/data/repository/ReminderRepository.kt:18-56 | The reminders are mapped in order, and missing data is an empty success. The fallback is "Gagal mengambil pengingat". |
| ReminderRepository.GetUpcomingReminders | app/src/main/java/com/alduraimron/accountinggrow/data/repository/ReminderRepository.kt:58-96 | The same as getReminders, with the same fallback. |
| ReminderRepository.CreateReminderBody | app/src/main/java/com/alduraimron/accountinggrow/data/repository/ReminderRepository.kt:108-114 | The body has name, dueDate, amount and recurrence always, and notes exactly when given. |
| ReminderRepository.CreateReminder | app/src/main/java/com/alduraimron/accountinggrow/data/repository/ReminderRepository.kt:98-153 | The envelope rule with "Data pengingat tidak valid" and "Gagal membuat pengingat". |
| ReminderRepository.MarkReminderAsPaid | app/src/main/java/com/alduraimron/accountinggrow/data/repository/ReminderRepository.kt:155-195 | The envelope rule with "Data pengingat tidak valid" and "Gagal menandai sebagai lunas". |
| ReminderRepository.DeleteReminder | app/src/main/java/com/alduraimron/accountinggrow/data/repository/ReminderRepository.kt:197-215 | Success carries the server's message or "Pengingat berhasil dihapus"; the fallback is "Gagal menghapus pengingat". |
| SavingRepository.DecodeFillingPlan | app/src/main/java/com/alduraimron/accountinggrow/data/repository/SavingRepository.kt:31-36 | "DAILY" and "WEEKLY" decode to their variants, and every other string to MONTHLY. |
| SavingRepository.FillingPlanRoundTrip | app/src/main/java/com/alduraimron/accountinggrow/data/repository/SavingRepository.kt:31-36 | Decoding a plan's name gives it back. |
| SavingRepository.ToSaving | app/src/main/java/com/alduraimron/accountinggrow/data/repository/SavingRepository.kt:26-39 | targetAmount, currentAmount and progress are copied, not recomputed; so are the other fields. The plan is decoded. |
| SavingRepository.GetSavings | app/src/main/java/com/alduraimron/accountinggrow/data/repository/SavingRepository.kt:18-54 | The savings are mapped in order, and missing data is an empty success. The fallback is "Gagal mengambil tabungan". |
| SavingRepository.CreateSavingBody | app/src/main/java/com/alduraimron/accountinggrow/data/repository/SavingRepository.kt:65-70 | The body has exactly name, targetAmount, currentAmount and fillingPlan. |
| SavingRepository.CreateSaving | app/src/main/java/com/alduraimron/accountinggrow/data/repository/SavingRepository.kt:56-107 | The envelope rule with "Data tabungan tidak valid" and "Gagal membuat tabungan". |
| SavingRepository.AddToSavingBody | app/src/main/java/com/alduraimron/accountinggrow/data/repository/SavingRepository.kt:113 | The body is exactly `{"amount": amount}`. |
| SavingRepository.AddToSaving | app/src/main/java/com/alduraimron/accountinggrow/data/repository/SavingRepository.kt:109-147 | The envelope rule with "Data tabungan tidak valid" and "Gagal menambah tabungan". |
| SavingRepository.DeleteSaving | app/src/main/java/com/alduraimron/accountinggrow/data/repository/SavingRepository.kt:149-167 | Success carries the server's message or "Tabungan berhasil dihapus"; the fallback is "Gagal menghapus tabungan". |
| BudgetRepository.DecodeBudgetType | app/src/main/java/com/alduraimron/accountinggrow/data/repository/BudgetRepository.kt:31-36 | "DAILY" and "WEEKLY" decode to their variants, and every other string to MONTHLY. |
| BudgetRepository.BudgetTypeRoundTrip | app/src/main/java/com/alduraimron/accountinggrow/data/repository/BudgetRepository.kt:31-36 | Decoding a budget type's name gives it back. |
| BudgetRepository.ToBudget | app/src/main/java/com/alduraimron/accountinggrow/data/repository/BudgetRepository.kt:28-59 | spent, remaining and percentage are copied exactly, as are the other fields. The nested category is mapped with the EXPENSE fallback and stays absent when absent. |
| BudgetRepository.GetBudgets | app/src/main/java/com/alduraimron/accountinggrow/data/repository/BudgetRepository.kt:20-71 | The budgets are mapped in order, and missing data is an empty success. The fallback is "Gagal mengambil anggaran". |
| BudgetRepository.CreateBudgetBody | app/src/main/java/com/alduraimron/accountinggrow/data/repository/BudgetRepository.kt:84-91 | The body has amount, budgetType, month, year and categoryId always, and notes exactly when given. |
| BudgetRepository.CreateBudget | app/src/main/java/com/alduraimron/accountinggrow/data/repository/BudgetRepository.kt:73-143 | The envelope rule with "Data anggaran tidak valid" and "Gagal membuat anggaran". |
| BudgetRepository.DeleteBudget | app/src/main/java/com/alduraimron/accountinggrow/data/repository/BudgetRepository.kt:145-163 | Success carries the server's message or "Anggaran berhasil dihapus"; the fallback is "Gagal menghapus anggaran". |
| CategoryRepository.CreateCategoryBody | app/src/main/java/com/alduraimron/accountinggrow/data/repository/CategoryRepository.kt:25-28 | The body is exactly `{name, type}`. |
| CategoryRepository.CreateCategory | app/src/main/java/com/alduraimron/accountinggrow/data/repository/CategoryRepository.kt:18-58 | The envelope rule with "Data kategori tidak valid" and "Gagal membuat kategori", and the type decoded with the EXPENSE fallback. |
| CategoryRepository.CreateCategoryKeepsServerMessage | app/src/main/java/com/alduraimron/accountinggrow/data/repository/CategoryRepository.kt:49-52 | A rejected create that carries a server message (a duplicate name, say) fails with that message unaltered. |
| CategoryRepository.GetCategories | app/src/main/java/com/alduraimron/accountinggrow/data/repository/CategoryRepository.kt:60-90 | The categories are mapped in order, and missing data is an empty success. The fallback is "Gagal mengambil kategori". |
| CategoryRepository.DeleteCategory | app/src/main/java/com/alduraimron/accountinggrow/data/repository/CategoryRepository.kt:92-111 | Success carries the server's message or "Kategori berhasil dihapus"; the fallback is "Gagal menghapus kategori". |
| HomeRepository.ToSummary | app/src/main/java/com/alduraimron/accountinggrow/data/repository/HomeRepository.kt:32-37 | The four figures of the summary are copied unchanged. |
| HomeRepository.GetTransactionSummary | app/src/main/java/com/alduraimron/accountinggrow/data/repository/HomeRepository.kt:24-52 | The envelope rule with "Data summary tidak tersedia" and "Gagal mengambil summary". |
| HomeRepository.RecentTransactionsQuery | app/src/main/java/com/alduraimron/accountinggrow/data/repository/HomeRepository.kt:57 | The recent list always asks for page 1, with the given limit and no type filter. |
| HomeRepository.GetRecentTransactions | app/src/main/java/com/alduraimron/accountinggrow/data/repository/HomeRepository.kt:54-99 | The page's transactions are mapped in order, and a missing page is an empty success. The fallback is "Gagal mengambil transaksi". |
| HomeRepository.RecentAgreesWithAll | app/src/main/java/com/alduraimron/accountinggrow/data/repository/HomeRepository.kt:60-89 | The home screen's recent list decides exactly as getAllTransactions does on the same response. |
| HomeRepository.GetCategories | app/src/main/java/com/alduraimron/accountinggrow/data/repository/HomeRepository.kt:101-130 | The categories are mapped in order with the EXPENSE fallback, and missing data is an empty success. |
| HomeRepository.GetUserProfile | app/src/main/java/com/alduraimron/accountinggrow/data/repository/HomeRepository.kt:132-154 | Success carries only the username. The envelope rule applies with "Data user tidak tersedia" and "Gagal mengambil profil". |
| ArticleRepository.ToArticle | app/src/main/java/com/alduraimron/accountinggrow/data/repository/ArticleRepository.kt:24-33 | Articles map field for field. |
| ArticleRepository.GetArticles | app/src/main/java/com/alduraimron/accountinggrow/data/repository/ArticleRepository.kt:17-45 | The page's articles are mapped in order, and a missing page is an empty success. The fallback is "Gagal mengambil artikel". |
| ArticleRepository.GetArticleById | app/src/main/java/com/alduraimron/accountinggrow/data/repository/ArticleRepository.kt:47-76 | The envelope rule with "Data artikel tidak valid" and "Gagal mengambil artikel". |
| UserRepository.ToUserProfile | app/src/main/java/com/alduraimron/accountinggrow/data/repository/UserRepository.kt:26-37 | The fields are copied; a missing createdAt or updatedAt becomes "". |
| UserRepository.GetUserProfile | app/src/main/java/com/alduraimron/accountinggrow/data/repository/UserRepository.kt:19-51 | The envelope rule with "Data profil tidak valid" and "Gagal mengambil profil". It is a function, so it cannot touch the store. |
| UserRepository.UpdateUserProfileBody | app/src/main/java/com/alduraimron/accountinggrow/data/repository/UserRepository.kt:62-67 | The body holds exactly the given fields among firstName, lastName, phoneNumber and bio, with their values. |
| UserRepository.UpdateUserProfile | app/src/main/java/com/alduraimron/accountinggrow/data/repository/UserRepository.kt:53-98 | The envelope rule with "Data profil tidak valid" and "Gagal memperbarui profil". |
| UserRepository.UserRepository.Logout | app/src/main/java/com/alduraimron/accountinggrow/data/repository/UserRepository.kt:100-119 | The store is empty afterwards and the result is "Logout berhasil". This holds on success, on a rejection and on an exception alike. |
| AuthRepository.Register | app/src/main/java/com/alduraimron/accountinggrow/data/repository/AuthRepository.kt:49-62 | Success carries the server's message or "Registrasi berhasil", and the fallback is "Registrasi gagal". As a function, it never writes the store. |
| AuthRepository.LoggedInStore | app/src/main/java/com/alduraimron/accountinggrow/data/repository/AuthRepository.kt:20-34 | After login, the store holds the response's two tokens and the user's id, name and e-mail. Every other key keeps its value. |
| AuthRepository.AuthRepository.Login | app/src/main/java/com/alduraimron/accountinggrow/data/repository/AuthRepository.kt:16-47 | Success exactly when the response is accepted with data. Then the store is written and is logged in, and the value is the message or "Login berhasil". On failure the store is unchanged, with "Data tidak valid", the rejection with "Login gagal", or the connection failure. |
| AuthRepository.AuthRepository.Logout | app/src/main/java/com/alduraimron/accountinggrow/data/repository/AuthRepository.kt:64-66 | The store is empty and not logged in. |
| AuthRepository.AuthRepository.IsLoggedIn | app/src/main/java/com/alduraimron/accountinggrow/data/repository/AuthRepository.kt:68-70 | Delegates to the store: true exactly when an access token is stored. |
| TokenManager.KeysDistinct | app/src/main/java/com/alduraimron/accountinggrow/data/local/TokenManager.kt:26-30 | The five preference keys are pairwise different. |
| TokenManager.TokenManager.Lookup | app/src/main/java/com/alduraimron/accountinggrow/data/local/TokenManager.kt:42-44 | `getString(key, null)`: present exactly when the key was written, with the written value. |
| TokenManager.TokenManager.GetAccessToken | app/src/main/java/com/alduraimron/accountinggrow/data/local/TokenManager.kt:42-44 | Present exactly when "access_token" is stored. |
| TokenManager.TokenManager.GetRefreshToken | app/src/main/java/com/alduraimron/accountinggrow/data/local/TokenManager.kt:46-48 | Present exactly when "refresh_token" is stored. |
| TokenManager.TokenManager.GetUserId | app/src/main/java/com/alduraimron/accountinggrow/data/local/TokenManager.kt:59-61 | Present exactly when "user_id" is stored. |
| TokenManager.TokenManager.GetUserName | app/src/main/java/com/alduraimron/accountinggrow/data/local/TokenManager.kt:63-65 | Present exactly when "username" is stored. |
| TokenManager.TokenManager.GetUserEmail | app/src/main/java/com/alduraimron/accountinggrow/data/local/TokenManager.kt:67-69 | Present exactly when "user_email" is stored. |
| TokenManager.TokenManager.IsLoggedIn | app/src/main/java/com/alduraimron/accountinggrow/data/local/TokenManager.kt:75-77 | True exactly when the access token is present. |
| TokenManager.TokenManager.SaveTokens | app/src/main/java/com/alduraimron/accountinggrow/data/local/TokenManager.kt:34-40 | The two tokens read back as written. Only those two keys change, so the user info getters are unchanged; the store is logged in. |
| TokenManager.TokenManager.SaveUserInfo | app/src/main/java/com/alduraimron/accountinggrow/data/local/TokenManager.kt:50-57 | The three user getters return what was written, and the tokens are untouched. |
| TokenManager.TokenManager.ClearTokens | app/src/main/java/com/alduraimron/accountinggrow/data/local/TokenManager.kt:71-73 | The store is empty: every getter returns null, and it is not logged in. |
| NetworkModule.BearerHeader | app/src/main/java/com/alduraimron/accountinggrow/di/NetworkModule.kt:51 | The header is named Authorization, and its value is "Bearer " followed by exactly the token. |
| NetworkModule.Authorize | app/src/main/java/com/alduraimron/accountinggrow/di/NetworkModule.kt:45-55 | Method, path and body never change. An auth path or a missing token leaves the request as it was; otherwise the bearer header is appended. |
| NetworkModule.AuthEndpointsUnsigned | app/src/main/java/com/alduraimron/accountinggrow/di/NetworkModule.kt:49 | A path with "/auth/" anywhere in it is forwarded unchanged, whatever the token. |
| NetworkModule.OtherEndpointsSigned | app/src/main/java/com/alduraimron/accountinggrow/di/NetworkModule.kt:49-52 | A path without "/auth/" and a stored token t gain exactly the header `Authorization: Bearer t`. |
| NetworkModule.Intercept | app/src/main/java/com/alduraimron/accountinggrow/di/NetworkModule.kt:44-55 | The interceptor forwards the request that signing rule gives for the token in the store. |
| TransactionViewModel.ListQuery | app/src/main/java/com/alduraimron/accountinggrow/presentation/transaction/TransactionViewModel.kt:49-53 | The list screen asks for page 1, 50 transactions, of the chosen type. |
| TransactionViewModel.TransactionViewModel.constructor | app/src/main/java/com/alduraimron/accountinggrow/presentation/transaction/TransactionViewModel.kt:33-39 | `init` loads every transaction (page 1, limit 50, no type), then the categories, starting from the default state. |
| TransactionViewModel.TransactionViewModel.LoadTransactions | app/src/main/java/com/alduraimron/accountinggrow/presentation/transaction/TransactionViewModel.kt:41-65 | The filter is recorded and the error cleared. A success replaces the list wholesale; a failure keeps it and shows the message. The load ends either way. |
| TransactionViewModel.TransactionViewModel.LoadCategories | app/src/main/java/com/alduraimron/accountinggrow/presentation/transaction/TransactionViewModel.kt:67-75 | A success replaces the categories; a failure leaves the state unchanged. |
| TransactionViewModel.TransactionViewModel.CreateTransaction | app/src/main/java/com/alduraimron/accountinggrow/presentation/transaction/TransactionViewModel.kt:77-109 | The created flag is reset at the start and is true afterwards exactly on success. |
| TransactionViewModel.TransactionViewModel.CreateCategory | app/src/main/java/com/alduraimron/accountinggrow/presentation/transaction/TransactionViewModel.kt:111-128 | A success reloads the categories without clearing the error; a failure shows its message. The load ends either way. |
| TransactionViewModel.TransactionViewModel.DeleteTransaction | app/src/main/java/com/alduraimron/accountinggrow/presentation/transaction/TransactionViewModel.kt:130-143 | A success reloads with the filter in force; a failure shows its message and keeps the list. |
| TransactionViewModel.TransactionViewModel.ClearError | app/src/main/java/com/alduraimron/accountinggrow/presentation/transaction/TransactionViewModel.kt:145-147 | Only the error changes. |
| TransactionViewModel.TransactionViewModel.ResetTransactionCreated | app/src/main/java/com/alduraimron/accountinggrow/presentation/transaction/TransactionViewModel.kt:149-151 | Only the created flag changes. |
| ReminderViewModel.Reloaded | app/src/main/java/com/alduraimron/accountinggrow/presentation/Reminder/ReminderViewModel.kt:93-94 | After both reloads, the load has ended. The list and the upcoming list are replaced by their successes and kept on failure. Only a failure of the list load shows an error; the messages and the created flag are kept. |
| ReminderViewModel.ReminderViewModel.constructor | app/src/main/java/com/alduraimron/accountinggrow/presentation/Reminder/ReminderViewModel.kt:28-34 | `init` loads every reminder (no paid filter), then the upcoming ones. |
| ReminderViewModel.ReminderViewModel.LoadReminders | app/src/main/java/com/alduraimron/accountinggrow/presentation/Reminder/ReminderViewModel.kt:36-55 | The start clears only the error, not the success message. A success replaces the list; a failure keeps it and shows the message. |
| ReminderViewModel.ReminderViewModel.LoadUpcomingReminders | app/src/main/java/com/alduraimron/accountinggrow/presentation/Reminder/ReminderViewModel.kt:57-65 | A success replaces the upcoming list; a failure leaves the state unchanged. |
| ReminderViewModel.ReminderViewModel.ReloadAll | app/src/main/java/com/alduraimron/accountinggrow/presentation/Reminder/ReminderViewModel.kt:93-94 | A reload after a change asks for every reminder (no paid filter), then the upcoming ones. |
| ReminderViewModel.ReminderViewModel.CreateReminder | app/src/main/java/com/alduraimron/accountinggrow/presentation/Reminder/ReminderViewModel.kt:67-102 | A success raises the created flag and "Pengingat berhasil dibuat", then reloads both lists unfiltered. A failure shows its message with the flag down. |
| ReminderViewModel.ReminderViewModel.MarkAsPaid | app/src/main/java/com/alduraimron/accountinggrow/presentation/Reminder/ReminderViewModel.kt:104-122 | A success shows "Ditandai sebagai lunas", then reloads both lists unfiltered; a failure shows its message. |
| ReminderViewModel.ReminderViewModel.DeleteReminder | app/src/main/java/com/alduraimron/accountinggrow/presentation/Reminder/ReminderViewModel.kt:124-142 | A success shows "Pengingat berhasil dihapus", then reloads both lists unfiltered; a failure shows its message. |
| ReminderViewModel.ReminderViewModel.ClearMessages | app/src/main/java/com/alduraimron/accountinggrow/presentation/Reminder/ReminderViewModel.kt:144-149 | Both messages are cleared and nothing else changes. |
| ReminderViewModel.ReminderViewModel.ResetReminderCreated | app/src/main/java/com/alduraimron/accountinggrow/presentation/Reminder/ReminderViewModel.kt:151-153 | Only the created flag changes. |
| BudgetViewModel.LoadedBudgets | app/src/main/java/com/alduraimron/accountinggrow/presentation/budget/BudgetViewModel.kt:41-60 | After a load, it has ended. A success replaces the budgets and clears the error; a failure keeps them and shows the message. Categories, messages and the flag are kept. |
| BudgetViewModel.BudgetViewModel.constructor | app/src/main/java/com/alduraimron/accountinggrow/presentation/budget/BudgetViewModel.kt:35-39 | `init` asks for the budgets of the given current month and year, then the categories. |
| BudgetViewModel.BudgetViewModel.LoadBudgets | app/src/main/java/com/alduraimron/accountinggrow/presentation/budget/BudgetViewModel.kt:41-60 | The load asks for the given month and year and leaves the loaded state. |
| BudgetViewModel.BudgetViewModel.LoadCategories | app/src/main/java/com/alduraimron/accountinggrow/presentation/budget/BudgetViewModel.kt:62-70 | A success replaces the categories; a failure leaves the state unchanged. |
| BudgetViewModel.BudgetViewModel.CreateBudget | app/src/main/java/com/alduraimron/accountinggrow/presentation/budget/BudgetViewModel.kt:72-108 | The start resets the error and the created flag. A success raises the flag and "Anggaran berhasil dibuat", and reloads the same month and year. |
| BudgetViewModel.BudgetViewModel.DeleteBudget | app/src/main/java/com/alduraimron/accountinggrow/presentation/budget/BudgetViewModel.kt:110-127 | A success shows "Anggaran berhasil dihapus" and reloads the month and year passed in; a failure shows its message. |
| BudgetViewModel.BudgetViewModel.ClearMessages | app/src/main/java/com/alduraimron/accountinggrow/presentation/budget/BudgetViewModel.kt:129-134 | Both messages are cleared and nothing else changes. |
| BudgetViewModel.BudgetViewModel.ResetBudgetCreated | app/src/main/java/com/alduraimron/accountinggrow/presentation/budget/BudgetViewModel.kt:136-138 | Only the created flag changes. |
| SavingViewModel.LoadedSavings | app/src/main/java/com/alduraimron/accountinggrow/presentation/saving/SavingViewModel.kt:34-53 | After a load, it has ended. A success replaces the savings and clears the error; a failure keeps them and shows the message. |
| SavingViewModel.SavingViewModel.constructor | app/src/main/java/com/alduraimron/accountinggrow/presentation/saving/SavingViewModel.kt:30-32 | `init` loads the savings. |
| SavingViewModel.SavingViewModel.LoadSavings | app/src/main/java/com/alduraimron/accountinggrow/presentation/saving/SavingViewModel.kt:34-53 | The load leaves the loaded state. |
| SavingViewModel.SavingViewModel.CreateSaving | app/src/main/java/com/alduraimron/accountinggrow/presentation/saving/SavingViewModel.kt:55-87 | A success raises the created flag and "Tabungan berhasil dibuat", then reloads. A failure shows its message with the flag down and the savings kept. |
| SavingViewModel.SavingViewModel.AddToSaving | app/src/main/java/com/alduraimron/accountinggrow/presentation/saving/SavingViewModel.kt:89-106 | A success shows "Berhasil menambah tabungan", then reloads; a failure shows its message and keeps the savings. |
| SavingViewModel.SavingViewModel.DeleteSaving | app/src/main/java/com/alduraimron/accountinggrow/presentation/saving/SavingViewModel.kt:108-125 | A success shows "Tabungan berhasil dihapus", then reloads; a failure shows its message and keeps the savings. |
| SavingViewModel.SavingViewModel.ClearMessages | app/src/main/java/com/alduraimron/accountinggrow/presentation/saving/SavingViewModel.kt:127-132 | Both messages are cleared and nothing else changes. |
| SavingViewModel.SavingViewModel.ResetSavingCreated | app/src/main/java/com/alduraimron/accountinggrow/presentation/saving/SavingViewModel.kt:134-136 | Only the created flag changes. |
| ProfileViewModel.ProfileViewModel.constructor | app/src/main/java/com/alduraimron/accountinggrow/presentation/profile/ProfileViewModel.kt:30-32 | `init` loads the profile. |
| ProfileViewModel.ProfileViewModel.LoadProfile | app/src/main/java/com/alduraimron/accountinggrow/presentation/profile/ProfileViewModel.kt:34-53 | The start clears the error. A success replaces the profile; a failure keeps it and shows the message. |
| ProfileViewModel.ProfileViewModel.UpdateProfile | app/src/main/java/com/alduraimron/accountinggrow/presentation/profile/ProfileViewModel.kt:55-85 | The start clears the error. A success shows the updated profile and "Profil berhasil diperbarui"; a failure keeps the profile and shows the message. |
| ProfileViewModel.ProfileViewModel.Logout | app/src/main/java/com/alduraimron/accountinggrow/presentation/profile/ProfileViewModel.kt:87-104 | Whatever the server answered, the screen ends logged out and not loading, and the credential store is empty. |
| ProfileViewModel.ProfileViewModel.ClearMessages | app/src/main/java/com/alduraimron/accountinggrow/presentation/profile/ProfileViewModel.kt:106-111 | Both messages are cleared and nothing else changes. |
| AuthViewModel.Finished | app/src/main/java/com/alduraimron/accountinggrow/presentation/auth/AuthViewModel.kt:36-50 | A finished call has stopped loading. Exactly one message is set: the success value on success, the failure message on failure. It becomes authenticated only on a success that authenticates. |
| AuthViewModel.AuthViewModel.constructor | app/src/main/java/com/alduraimron/accountinggrow/presentation/auth/AuthViewModel.kt:25-26 | It starts in the default state. |
| AuthViewModel.AuthViewModel.Login | app/src/main/java/com/alduraimron/accountinggrow/presentation/auth/AuthViewModel.kt:28-51 | The start clears both messages. A success authenticates, shows the repository's message and writes the session. A failure shows the repository's message and leaves the store and the flag as they were. |
| AuthViewModel.AuthViewModel.Register | app/src/main/java/com/alduraimron/accountinggrow/presentation/auth/AuthViewModel.kt:53-75 | The start clears both messages. The outcome's message is shown, and the authenticated flag never changes. |
| AuthViewModel.AuthViewModel.ClearMessages | app/src/main/java/com/alduraimron/accountinggrow/presentation/auth/AuthViewModel.kt:77-82 | Both messages are cleared and nothing else changes. |
| AuthViewModel.AuthViewModel.CheckAuthStatus | app/src/main/java/com/alduraimron/accountinggrow/presentation/auth/AuthViewModel.kt:84-86 | True exactly when the store holds an access token. |
| HomeViewModel.AfterSummary | app/src/main/java/com/alduraimron/accountinggrow/presentation/home/HomeViewModel.kt:37-52 | After the profile and summary steps the screen is still loading. A profile failure is ignored, and a summary failure shows its message. |
| HomeViewModel.HomeLoaded | app/src/main/java/com/alduraimron/accountinggrow/presentation/home/HomeViewModel.kt:37-64 | Only the last step ends the load. The error is the recent list's if that failed, else the summary's if that failed, else none. Each success replaces its part, wholesale for the list. |
| HomeViewModel.HomeViewModel.constructor | app/src/main/java/com/alduraimron/accountinggrow/presentation/home/HomeViewModel.kt:31-33 | `init` runs one load from the default state, asking for the five most recent transactions. |
| HomeViewModel.HomeViewModel.LoadHomeData | app/src/main/java/com/alduraimron/accountinggrow/presentation/home/HomeViewModel.kt:35-66 | The three calls applied in order leave the home-loaded state; the recent list asks for five transactions. |
| HomeViewModel.HomeViewModel.ClearError | app/src/main/java/com/alduraimron/accountinggrow/presentation/home/HomeViewModel.kt:68-70 | Only the error changes. |
| HomeScreen.FormatDate | app/src/main/java/com/alduraimron/accountinggrow/presentation/home/HomeScreen.kt:677-683 | The result is a prefix of the input: its first ten characters, or the whole input when it is shorter. |
| HomeScreen.FormatDateIdempotent | app/src/main/java/com/alduraimron/accountinggrow/presentation/home/HomeScreen.kt:677-683 | Formatting twice is formatting once. |
| HomeScreen.FormatDateOfTimestamp | app/src/main/java/com/alduraimron/accountinggrow/presentation/transaction/TransactionListScreen.kt:346-352 | A timestamp that starts with a ten-character date shows as that date. |
| HomeScreen.AmountPrefix | app/src/main/java/com/alduraimron/accountinggrow/presentation/home/HomeScreen.kt:660 | "+" exactly for income and "-" exactly for expense. |
| HomeScreen.DisplayUsername | app/src/main/java/com/alduraimron/accountinggrow/presentation/home/HomeScreen.kt:347 | An empty username shows as "User"; any other shows as itself; the shown name is never empty. |
| HomeScreen.BalanceCard | app/src/main/java/com/alduraimron/accountinggrow/presentation/home/HomeScreen.kt:125-129 | A missing summary shows 0.0 for balance, income and expense; a present one shows its own figures. |
| TransactionListScreen.ChipValue | app/src/main/java/com/alduraimron/accountinggrow/presentation/transaction/TransactionListScreen.kt:118-140 | "Semua" stands for no filter, "Pemasukan" for "INCOME" and "Pengeluaran" for "EXPENSE", and no two chips share a value. |
| TransactionListScreen.AtMostOneSelected | app/src/main/java/com/alduraimron/accountinggrow/presentation/transaction/TransactionListScreen.kt:119-139 | No two chips are selected at once. |
| TransactionListScreen.SomeChipSelected | app/src/main/java/com/alduraimron/accountinggrow/presentation/transaction/TransactionListScreen.kt:119-139 | Any filter the chips can set selects some chip. |
| TransactionListScreen.TapChip | app/src/main/java/com/alduraimron/accountinggrow/presentation/transaction/TransactionListScreen.kt:120-140 | A tap loads with the chip's value, after which exactly that chip is selected. On success the view-model ends idle with no error and the tapped filter, and the returned list replaces the old one. On failure it ends idle with the tapped filter, the error shown and the old list kept. |
| ReminderScreen.ChipValue | app/src/main/java/com/alduraimron/accountinggrow/presentation/Reminder/ReminderScreen.kt:115-146 | "Semua" stands for no filter, "Belum Lunas" for unpaid and "Lunas" for paid. |
| ReminderScreen.ExactlyOneSelected | app/src/main/java/com/alduraimron/accountinggrow/presentation/Reminder/ReminderScreen.kt:116-142 | Every filter value selects exactly one chip. |
| ReminderScreen.PaidFilter.Tap | app/src/main/java/com/alduraimron/accountinggrow/presentation/Reminder/ReminderScreen.kt:117-145 | A tap remembers the chip's value, selects the chip and loads with that value. On success the view-model ends idle with no error and the returned reminders. On failure it ends idle with the error shown and the old reminders kept. |
| ReminderScreen.MarkPaidVisible | app/src/main/java/com/alduraimron/accountinggrow/presentation/Reminder/ReminderScreen.kt:339 | The mark-paid button shows exactly on unpaid reminders. |
| ReminderScreen.ShowFullSpinner | app/src/main/java/com/alduraimron/accountinggrow/presentation/Reminder/ReminderScreen.kt:155 | The full spinner shows exactly while loading with an empty list. |
| BudgetScreen.GetMonthName | app/src/main/java/com/alduraimron/accountinggrow/presentation/budget/BudgetScreen.kt:376-392 | Months 1 to 12 get their Indonesian names in calendar order; any other number gets "Unknown". |
| BudgetScreen.MonthNamesInjective | app/src/main/java/com/alduraimron/accountinggrow/presentation/budget/BudgetScreen.kt:376-392 | The twelve names differ from each other and from "Unknown", so a shown name identifies its month. |
| BudgetScreen.PercentageBand | app/src/main/java/com/alduraimron/accountinggrow/presentation/budget/BudgetScreen.kt:227-231 | Red exactly from 90, orange exactly from 70 below 90, green exactly below 70. |
| BudgetScreen.PercentageBandMonotone | app/src/main/java/com/alduraimron/accountinggrow/presentation/budget/BudgetScreen.kt:227-231 | A higher percentage never gets a less alarming colour. |
| BudgetScreen.ConfirmDelete | app/src/main/java/com/alduraimron/accountinggrow/presentation/budget/BudgetScreen.kt:175-179 | The delete goes to the budget's own id. On success, "Anggaran berhasil dihapus" shows and the budget's own month and year are reloaded into the view-model. On failure the view-model ends idle with the error and nothing is reloaded. |
| RegisterScreen.IsFormValid | app/src/main/java/com/alduraimron/accountinggrow/presentation/auth/RegisterScreen.kt:70-74 | Valid exactly when the form is filled and matches. A username, e-mail and password that each hold a non-whitespace character, with an equal confirmation, make the form valid. Any blank field or a mismatch makes it invalid, and a valid form has four non-empty fields. |
| RegisterScreen.ShowsMismatch | app/src/main/java/com/alduraimron/accountinggrow/presentation/auth/RegisterScreen.kt:240-244 | "Password tidak cocok" shows exactly when the confirmation holds a non-whitespace character and differs from the password. It never shows for a blank confirmation or matching passwords. |
| RegisterScreen.RegisterEnabled | app/src/main/java/com/alduraimron/accountinggrow/presentation/auth/RegisterScreen.kt:270 | The button is enabled exactly for a valid form while nothing is loading. |
| RegisterScreen.MismatchDisablesRegister | app/src/main/java/com/alduraimron/accountinggrow/presentation/auth/RegisterScreen.kt:70-74 | While the mismatch error shows, the form is invalid and the button is disabled. |
| RegisterScreen.EnabledMeansConsistent | app/src/main/java/com/alduraimron/accountinggrow/presentation/auth/RegisterScreen.kt:270 | An enabled button means nothing is loading, the passwords agree, no error shows and the fields are non-empty. |
| AddTransactionScreen.OfType | app/src/main/java/com/alduraimron/accountinggrow/presentation/transaction/AddTransactionScreen.kt:220-222 | The dropdown offers exactly the categories of the chosen type, and only those. |
| AddTransactionScreen.AddTransactionForm.constructor | app/src/main/java/com/alduraimron/accountinggrow/presentation/transaction/AddTransactionScreen.kt:76-80 | The form starts empty, on expense, with no category and today's date. |
| AddTransactionScreen.AddTransactionForm.SelectType | app/src/main/java/com/alduraimron/accountinggrow/presentation/transaction/AddTransactionScreen.kt:139-160 | Choosing a type drops the chosen category, which keeps the category/type invariant. |
| AddTransactionScreen.AddTransactionForm.EnterNominal | app/src/main/java/com/alduraimron/accountinggrow/presentation/transaction/AddTransactionScreen.kt:169 | The nominal holds the digits of what was typed, so it only ever holds digits. |
| AddTransactionScreen.AddTransactionForm.EnterDescription | app/src/main/java/com/alduraimron/accountinggrow/presentation/transaction/AddTransactionScreen.kt:285 | The description holds what was typed, and nothing else changes. |
| AddTransactionScreen.DaysBack | app/src/main/java/com/alduraimron/accountinggrow/presentation/transaction/AddTransactionScreen.kt:366-386 | The three buttons pick today, one day back and two days back, each a different offset. |
| AddTransactionScreen.AddTransactionForm.ChooseDate | app/src/main/java/com/alduraimron/accountinggrow/presentation/transaction/AddTransactionScreen.kt:366-386 | A date button sets the date to the clock's date that many days back. Every other field is kept, so the form stays valid. |
| AddTransactionScreen.AddTransactionForm.ChooseCategory | app/src/main/java/com/alduraimron/accountinggrow/presentation/transaction/AddTransactionScreen.kt:230-236 | A chosen category is one of the offered entries, so it has the chosen type. |
| AddTransactionScreen.AddTransactionForm.SubmitEnabled | app/src/main/java/com/alduraimron/accountinggrow/presentation/transaction/AddTransactionScreen.kt:325-327 | Submit is enabled exactly while idle, with a category and a non-blank nominal. |
| AddTransactionScreen.AddTransactionForm.Submit | app/src/main/java/com/alduraimron/accountinggrow/presentation/transaction/AddTransactionScreen.kt:308-316 | Something is sent exactly with a category and a non-empty nominal. The sent type matches both the chosen type and the category's, and the nominal is the digits' value. A blank description is sent as null. |
| SavingScreen.SavingDialogs.OpenDelete | app/src/main/java/com/alduraimron/accountinggrow/presentation/saving/SavingScreen.kt:153-156 | A card's delete icon opens the delete dialog for that card's saving. The add-money dialog is untouched. |
| SavingScreen.SavingDialogs.ConfirmDelete | app/src/main/java/com/alduraimron/accountinggrow/presentation/saving/SavingScreen.kt:176-181 | The delete goes to the saving the dialog was opened for, and the dialog closes. |
| SavingScreen.SavingDialogs.OpenAddMoney | app/src/main/java/com/alduraimron/accountinggrow/presentation/saving/SavingScreen.kt:157-160 | A card's add icon opens the add-money dialog for that card's saving. The delete dialog is untouched. |
| SavingScreen.SavingDialogs.ConfirmAddMoney | app/src/main/java/com/alduraimron/accountinggrow/presentation/saving/SavingScreen.kt:199-203 | The amount, which the dialog only hands on when positive, goes to the saving the dialog was opened for, and the dialog closes. |
| SavingScreen.AddMoneyDialog.EnterAmount | app/src/main/java/com/alduraimron/accountinggrow/presentation/saving/SavingScreen.kt:376 | The amount holds the digits of what was typed, so it only ever holds digits. |
| SavingScreen.AddMoneyDialog.ConfirmEnabled | app/src/main/java/com/alduraimron/accountinggrow/presentation/saving/SavingScreen.kt:392 | "Tambah" is enabled exactly when the amount is non-empty, since a non-empty string of ASCII digits always parses. |
| SavingScreen.AddMoneyDialog.Confirm | app/src/main/java/com/alduraimron/accountinggrow/presentation/saving/SavingScreen.kt:385-391 | A value is handed on only if it is positive, and it is the digits' value. Exactly an all-zero (or empty) field hands nothing. |
| Text.FilterDigits | app/src/main/java/com/alduraimron/accountinggrow/presentation/transaction/AddTransactionScreen.kt:169 | `filter { isDigit() }` yields only digits, is never longer than its input, and holds a character exactly when it is a digit of the input. |
| Text.FilterDigitsKeepsDigits | app/src/main/java/com/alduraimron/accountinggrow/presentation/transaction/AddTransactionScreen.kt:169 | A digit string passes through the filter unchanged. |
| Text.FilterDigitsAppend | app/src/main/java/com/alduraimron/accountinggrow/presentation/transaction/AddTransactionScreen.kt:169 | The digits of a concatenation are the digits of the first part, then those of the second: with the membership clause this fixes the result to the input's digits in order. |
| Text.FilterDigitsIdempotent | app/src/main/java/com/alduraimron/accountinggrow/presentation/saving/SavingScreen.kt:376 | Filtering twice is filtering once. |
| Text.DigitsBlankIffEmpty | app/src/main/java/com/alduraimron/accountinggrow/presentation/saving/SavingScreen.kt:392 | A digit string is blank exactly when it is empty. |
| Text.ParseDigits | app/src/main/java/com/alduraimron/accountinggrow/presentation/saving/SavingScreen.kt:386 | `toDoubleOrNull` on a digit string is null exactly for the empty string; otherwise it is the number the digits write. |
| Text.DigitsValueZero | app/src/main/java/com/alduraimron/accountinggrow/presentation/saving/SavingScreen.kt:387-388 | A digit string writes zero exactly when each digit is '0'. |
| Text.IsWhitespace | app/src/main/java/com/alduraimron/accountinggrow/presentation/auth/RegisterScreen.kt:70-73 | Space, tab and newline are whitespace; ASCII digits and letters are not. |
| Text.IsBlank | app/src/main/java/com/alduraimron/accountinggrow/presentation/auth/RegisterScreen.kt:70-73 | Blank exactly when every character is whitespace, so the empty string is blank. |
| Text.Contains | app/src/main/java/com/alduraimron/accountinggrow/di/NetworkModule.kt:49 | A needle that starts the haystack is contained, and one longer than the haystack never is. |
| Text.ContainsIffOccurs | app/src/main/java/com/alduraimron/accountinggrow/di/NetworkModule.kt:49 | `contains` holds exactly when the needle occurs at some index. |

## Left out

- Coroutines, `viewModelScope`, `StateFlow` and Hilt wiring are not modelled. Each intent runs to completion as one sequence. A reload the source launches in a coroutine of its own is applied right after the outcome that triggered it. Intents that overlap in time are not modelled.
- The network calls, Retrofit, Gson/JSON parsing and OkHttp's logging interceptor are not modelled. Each call's outcome is a parameter: a `Response` in the repositories, a `Result` in the ViewModels.
- The request parameters that only shape a query are not modelled. These are page, limit, the isPaid/month/year filters and the login/register request DTOs. Where a ViewModel fixes one, the method returns it as a query value (`ListQuery`, `RecentTransactionsQuery`, `RemindersQuery`, `BudgetsQuery`).
- The id of the entity a repository call works on (`deleteTransaction(id)` and its siblings) is part of the URL, which is not modelled. The screens return the id they pass on.
- `LocalDate.now()` is a parameter: the month and year of `BudgetViewModel`'s `init`, and the date of the add-transaction form.
- `android.util.Log` calls are not modelled. SharedPreferences encryption and persistence across restarts are not modelled either: the store is a map, and its starting contents are the constructor's parameter.
- `formatCurrency`, the `"%.1f"` percentage text and every colour, layout and navigation effect of the Compose screens are not modelled.
- The remaining screens are not modelled: login, profile, add-reminder, add-budget, add-saving, the category dialog, onboarding and splash. Their only logic is a one-line enable guard or a label.
- Text.IsDigit: Kotlin's `Char.isDigit` accepts every Unicode decimal digit; the model accepts only ASCII '0'..'9'.
- AddTransactionScreen.AddTransactionForm.Submit: not modelled for non-ASCII decimal digits (such as "١٢" or "１２"). The field's filter keeps them, but `toDoubleOrNull` returns null for them. The field is then non-blank, so submit is enabled, and the app sends `nominal = 0.0` by its `?: 0.0` fallback. The model's field holds ASCII digits only, so this case does not arise in it.
- SavingScreen.AddMoneyDialog.ConfirmEnabled: not modelled for non-ASCII decimal digits. The field keeps them, but `toDoubleOrNull` returns null for them, so "Tambah" stays disabled while the field shows digits. In the model a non-empty field always enables the button.
- Text.ParseDigits: `toDoubleOrNull` is modelled only on strings of ASCII digits, which are what the model's filtered fields hold. The value is the exact natural number, not the nearest `Double`, so a value too large for a `Double` is not rounded.
- `buildMap` request bodies are `map`s, so the model does not keep their insertion order, which the server does not read.
- The `ApiResponse`, `UserDto` and `AuthResponse` declarations are not part of this model. Their shapes are the fields the repositories read from them.
- `HomeScreen.FormatDate` and `HomeScreen.AmountPrefix` are defined once. `TransactionListScreen.kt` (lines 315 and 346-352) and `ReminderScreen.kt` (lines 373-379) repeat the same bodies word for word.
- HomeScreen.FormatDate: Kotlin's `substring(0, 10)` counts UTF-16 code units, while Dafny strings hold Unicode scalar values. The two differ only on input holding characters outside the Basic Multilingual Plane, which an ISO date never does.
