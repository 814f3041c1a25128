# User directory and session of `UserProvider`

This project models the only logic in the app: the in-memory user directory and login session that
`UserProvider` in `context/UserContext.tsx` shares with every screen. The provider has three state
cells:

- `users`: an ordered list of `User` records (`id`, `nome`, `email`, `senha`);
- `isAuthenticated`: a flag;
- `currentUser`: a user or null.

Three operations change that state:

- `addUser` registers a user unless the e-mail is already taken, ignoring case. The newest user goes
  first in the list.
- `login` looks for the first user whose e-mail matches ignoring case and whose password matches
  exactly. If it finds one, it opens a session for that user.
- `logout` clears the session.

Files:

- `lowercase.dfy` (module `Lowercase`): lowercasing, used on both sides of every e-mail comparison.
- `user_context.dfy` (module `UserContext`):
  - the `User` datatype;
  - the two pure searches, `EmailTaken` (`users.some`) and `FindUser` (`users.find`);
  - a value `State` of the three cells, with one step function per operation (`AddUserStep`,
    `LoginStep`, `LogoutStep`);
  - the invariant `Inv` and lemmas about the step functions;
  - the class `UserProvider`, whose fields are the three cells. Its methods `AddUser`, `Login` and
    `Logout` update those fields in place. Each method's contract ties the new fields and the
    returned boolean to the matching step function, and says that the method keeps `Inv`.

`Inv` holds in every reachable state. It says three things:

- no two users have e-mails that are equal after lowercasing;
- `isAuthenticated` holds exactly when there is a current user;
- the current user is one of the registered users.

`Scenario` registers Ana, is refused when it registers `ANA@X.com`, logs in as Ana and logs out
twice. The verifier proves each of its asserts from the method contracts alone.

## Model

| member | source | states |
|---|---|---|
| `Lowercase.Lower` | context/UserContext.tsx:44 | The lowercased e-mail has the same length as the input, each character is lowered, and no upper-case letter is left |
| `Lowercase.LowerChar` | context/UserContext.tsx:44 | A character comes back lower-case: 'A'..'Z' moves to 'a'..'z' and every other character is unchanged |
| `Lowercase.LowerIdempotent` | context/UserContext.tsx:44 | Lowercasing twice has the same effect as lowercasing once |
| `UserContext.SameEmail` | context/UserContext.tsx:44 | Two e-mails are the same exactly when they have equal length and agree at every position once both characters are lowered |
| `Lowercase.LowerEqualIff` | context/UserContext.tsx:44 | Two strings lower to the same string exactly when they have equal length and agree character by character after lowering |
| `UserContext.EmailTaken` | context/UserContext.tsx:44 | True exactly when some user in the list has the given e-mail, ignoring case |
| `UserContext.FindUser` | context/UserContext.tsx:57-59 | None exactly when no user matches the e-mail (ignoring case) and the password (exactly); otherwise the first matching user in list order |
| `UserContext.AddUserStep` | context/UserContext.tsx:42-53 | Succeeds exactly when no existing e-mail equals the new one ignoring case. On failure the state is unchanged. On success the list is the new user followed by the old list, one longer. The session is never touched |
| `UserContext.LoginStep` | context/UserContext.tsx:56-68 | Succeeds exactly when some user matches. On success the session is authenticated as the first matching user. On failure the state is unchanged. The user list never changes |
| `UserContext.LogoutStep` | context/UserContext.tsx:71-74 | Afterwards the session is unauthenticated with no current user, whatever it was before. The users are kept |
| `UserContext.Initial` | context/UserContext.tsx:35-39 | The starting state: no users, not authenticated, no current user |
| `UserContext.InitialInv` | context/UserContext.tsx:35-39 | The initial state (no users, not authenticated, no current user) satisfies the invariant |
| `UserContext.AddUserPreservesInv` | context/UserContext.tsx:44-51 | `addUser` keeps e-mails unique ignoring case, and keeps the session invariant |
| `UserContext.LoginPreservesInv` | context/UserContext.tsx:56-64 | `login` keeps the invariant: authenticated exactly when there is a current user, and that user is registered |
| `UserContext.LogoutPreservesInv` | context/UserContext.tsx:71-74 | `logout` keeps the invariant |
| `UserContext.LogoutIdempotent` | context/UserContext.tsx:71-74 | Logging out twice gives the same state as logging out once |
| `UserContext.RegisteredUserLogsIn` | context/UserContext.tsx:56-64 | With unique e-mails, a registered user's own password and e-mail (in any case) log in as exactly that user |
| `UserContext.AddThenLogin` | context/UserContext.tsx:42-64 | A user who has just registered can log in with the same credentials right away and becomes the current user |
| `UserContext.SecondRegistrationRejected` | context/UserContext.tsx:44-52 | After a successful registration, registering an e-mail that differs only in case fails and leaves the state as it was. The list has grown by exactly one |
| `UserContext.FailedLoginKeepsSession` | context/UserContext.tsx:61-67 | A failed login leaves a logged-in user logged in as the same user |
| `UserContext.ScenarioEmails` | context/UserContext.tsx:44 | `ANA@X.com` and `ana@x.com` are the same e-mail ignoring case |
| `UserContext.UserProvider.constructor` | context/UserContext.tsx:35-39 | The provider starts with no users, not authenticated, with no current user, and satisfies the invariant |
| `UserContext.UserProvider.AddUser` | context/UserContext.tsx:42-53 | Updates the fields and returns the boolean exactly as `AddUserStep` says, and keeps the invariant |
| `UserContext.UserProvider.Login` | context/UserContext.tsx:56-68 | Updates the fields and returns the boolean exactly as `LoginStep` says, and keeps the invariant |
| `UserContext.UserProvider.Logout` | context/UserContext.tsx:71-74 | Updates the fields exactly as `LogoutStep` says, and keeps the invariant |

## Left out

- `Lowercase.Lower`: JavaScript's `toLowerCase` applies the full Unicode case mapping, and this model lowers only the ASCII letters `A`-`Z`. For ASCII e-mails the two agree.
- `Lowercase.LowerChar`: only `A`-`Z` are lowered, while `toLowerCase` also maps non-ASCII letters (such as `É`). `SameEmail`, `EmailTaken`, `FindUser` and the step functions inherit this through `SameEmail`.
- Id generation: `addUser` takes its `id` from `Date.now()`, a clock read. The model takes the id as a parameter of `AddUser` and makes no claim that ids are unique.
- React plumbing: `createContext`, the `useUser` hook and the error it throws outside a provider (`context/UserContext.tsx:26-30`). Also left out is batched `useState` updating, where two calls in one render read the same `users` snapshot. Here each operation sees the state the previous one left.
- Object identity: the source's `currentUser` is a reference to the found record. The model stores a copy of the value.
- Screens: login, registration, list, header and layout are UI and navigation calling into the provider. The form checks for empty fields and the `trim()` calls happen in the screens before `addUser` and `login` are called. Neither operation is given a precondition for them, because neither checks.
