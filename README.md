# Chat application core, modelled in Dafny

A model of the state-update rules of a two-party chat application, in
three layers:

- **Server message controller** (`message_store.dfy`, module `MessageStore`):
  the sidebar query that lists every other user with a per-sender count of
  unseen messages; the conversation query, which also marks everything the
  contact sent the requester as seen; the single seen-mark; and sending,
  which uploads an image when one is attached, creates the record, and only
  then pushes it to the receiver's socket when the presence map has one.
  The Message collection is a sequence in creation order, the User
  collection a sequence of ids, the presence map an input, and pushes an
  output event list.
- **Server user controller** (`accounts.dfy`, module `Accounts`): sign-up
  with its missing-field and duplicate-email checks, login by email and
  password hash, the authentication echo, and the profile update with and
  without a new picture. The table keeps at most one account per email.
- **Client chat context** (`chat_client.dfy`, module `ChatClient`): the
  sidebar and conversation fetches, sending to the selected user, the
  `newMessage` listener, and the effect that re-subscribes that listener
  when the socket or the selection changes. Its invariant is that a present
  socket carries exactly one listener, and that listener sees the current
  selection.
- **Client authentication context** (`auth_client.dfy`, module
  `AuthClient`): the token in state, local storage and request header; the
  logged-in user; the guarded socket connection; the online list.
- **Login page** (`login_page.dfy`, module `LoginPage`): the two-step
  sign-up form, the mode links, the back arrow and the input visibility.
  Its handlers are specified by a transition function `Next`. Every
  reachable state keeps the Login mode one-step.
- **End to end** (`end_to_end.dfy`, module `EndToEnd`): the client's
  incrementally bumped unseen counters agree with what a fresh sidebar load
  would count over the grown store. It also holds a delivery scenario
  across server and client.

Shared records (messages, users, request outcomes) are in `domain.dfy`.
Foreign services are parameters: the image host's answer (`upload`, none
when the upload throws), whether the store accepted a record (`stored`),
the bcrypt hash (`hashed`) and comparison (`matches`), the signed token
(`Jwt(userId)`), and the outcome of each client request (`Reply`).

Some behaviour of the code that a reader might expect otherwise, and that
the model keeps as the code has it:
- `sendMessage` does not reject a message whose text and image are both
  empty: it creates the record. The store schema is not part of this model,
  so the possibility of a rejected create is the abstract `stored` flag.
- The conversation query does not sort: it returns records in store order.
- A seen-mark for an unknown id answers success and changes nothing; there
  is no not-found error.
- The client does not tag fetches with the contact they were for and does
  not discard stale responses.
- Selecting a contact does not reset that contact's unseen count inside the
  chat context.

## Model

| member | source | states |
|---|---|---|
| `MessageStore.Select` | server/controllers/messageController.js:25 | a `Message.find` returns exactly the stored records that match the filter, each as many times as it is stored, so its length is the number of matching records (the sidebar's count) |
| `MessageStore.Conversation` | server/controllers/messageController.js:59-64 | the conversation holds exactly the stored messages from me to the contact or from the contact to me |
| `MessageStore.OtherUsers` | server/controllers/messageController.js:20 | the sidebar list holds exactly the users other than the requester |
| `MessageStore.MarkSeenWhere` | server/controllers/messageController.js:66-69 | the bulk update sets `seen` on every matching record and leaves every other record exactly as it was, in place |
| `MessageStore.MarkSeenWhereGrows` | server/controllers/messageController.js:66-69 | a seen-mark changes nothing but `seen` flags and never turns one from true to false |
| `MessageStore.MarkAllSeenClearsUnseen` | server/controllers/messageController.js:66-69 | after the contact's messages to me are marked, none of them is unseen, so the sidebar count for that contact is zero |
| `MessageStore.Unseen` | server/controllers/messageController.js:25 | the per-sender query returns exactly the stored unseen messages from that sender to the requester |
| `MessageStore.MarkAllSeen` | server/controllers/messageController.js:66-69 | every message from the contact to me becomes seen, in place; my messages to the contact and messages of other pairs are unchanged |
| `MessageStore.MarkOneSeen` | server/controllers/messageController.js:88 | marking one message raises the flag of the message with that id and leaves every other message unchanged; an unknown id changes nothing |
| `MessageStore.Online` | server/controllers/messageController.js:128-129 | a receiver with no entry in the presence map, or with an empty socket id, is not online; an online receiver has a non-empty socket id |
| `MessageStore.StoredImage` | server/controllers/messageController.js:114-118 | a created message records the uploaded URL exactly when an image was sent; without an image it records none |
| `MessageStore.MarkOneSeenIdempotent` | server/controllers/messageController.js:85-89 | marking the same message twice gives the same store as marking it once |
| `MessageStore.Dispatch` | server/controllers/messageController.js:127-131 | exactly one `newMessage` push, to the receiver's socket and carrying the created record, when the presence map holds a truthy socket id for the receiver; none otherwise |
| `MessageStore.CreatedMessageEndsConversation` | server/controllers/messageController.js:120-125 | a created message with a fresh id appears in its parties' conversation exactly once, after every earlier message |
| `MessageStore.MessageServer.GetUsersForSidebar` | server/controllers/messageController.js:17-33 | the list never contains the requester; the unseen map has an entry exactly for each other user with unseen messages to the requester, equal to their number and never zero |
| `MessageStore.MessageServer.GetMessages` | server/controllers/messageController.js:54-71 | answers the conversation with its flags as before the update, then every contact-to-me message is seen and nothing else changes |
| `MessageStore.MessageServer.MarkMessageAsSeen` | server/controllers/messageController.js:85-89 | the store becomes the one-message seen-mark of the old store; ids stay unique and ordered |
| `MessageStore.MessageServer.SendMessage` | server/controllers/messageController.js:108-134 | fails exactly when the upload of a given image or the create fails, and then stores and pushes nothing; on success stores one unseen record with the upload URL as image (none without an image) under a fresh id, and only then pushes it per `Dispatch` |
| `Accounts.FindOne` | server/controllers/userController.js:28 | a single-record lookup (by email in `findOne`, by id after `findByIdAndUpdate`) returns an account of the collection that matches, and returns none exactly when no account matches |
| `Accounts.FindByEmail` | server/controllers/userController.js:28 | the email lookup returns an account of the collection with that email, and none exactly when no account has it |
| `Accounts.FindById` | server/controllers/userController.js:110-116 | the id lookup behind the updated record returns the account with that id, and none exactly when no account has it |
| `Accounts.FindByEmailUnique` | server/controllers/userController.js:63 | with unique emails the account found by email is the only one with that email |
| `Accounts.UpdateProfileFields` | server/controllers/userController.js:109-116 | the requester's bio and name are replaced, the picture only when one is given; other accounts, and every id, email and password hash, are unchanged |
| `Accounts.UpdateProfileKeepsEmailsUnique` | server/controllers/userController.js:109-116 | a profile update keeps at most one account per email |
| `Accounts.CheckAuth` | server/controllers/userController.js:85-87 | answers success with the authenticated user unchanged |
| `Accounts.AccountServer.Signup` | server/controllers/userController.js:21-41 | a missing field answers "Missing Details" and an existing email "Account already exists", both leaving the table unchanged; with all four fields and an unused email it always succeeds, adding exactly one account under the next id, holding the hash instead of the password, answered with its token; at most one account per email is kept |
| `Accounts.AccountServer.Login` | server/controllers/userController.js:60-77 | succeeds exactly when an account has that email and the password matches its hash, answering that account and its token; an unknown email fails with the null read's error; a wrong password fails with "Invalid credentials" |
| `Accounts.AccountServer.UpdateProfile` | server/controllers/userController.js:102-118 | without a picture only bio and name change; with one, the uploaded URL is stored too, or nothing changes when the upload fails; answers the updated account |
| `ChatClient.Bumped` | client/context/ChatContext.jsx:73-78 | the sender's unseen count goes up by one, an absent entry becoming 1, and no other entry changes |
| `ChatClient.ChatProvider.constructor` | client/context/ChatContext.jsx:10-15 | empty state with nothing selected; the first effect run leaves one listener exactly when a socket exists |
| `ChatClient.ChatProvider.GetUsers` | client/context/ChatContext.jsx:18-28 | on success users and unseen map are replaced wholesale by the payload; otherwise unchanged |
| `ChatClient.ChatProvider.GetMessages` | client/context/ChatContext.jsx:31-40 | on success messages are replaced wholesale; otherwise unchanged |
| `ChatClient.ChatProvider.SendMessage` | client/context/ChatContext.jsx:43-57 | with nothing selected no request is issued and nothing changes; otherwise one POST to the selected user, and on success exactly the server's message is appended |
| `ChatClient.ChatProvider.SelectUser` | client/context/ChatContext.jsx:89-92 | a new selection removes every listener and subscribes one that sees the new selection, so at most one is active |
| `ChatClient.ChatProvider.SocketChanged` | client/context/ChatContext.jsx:85-92 | a new socket drops the old socket's listener and gets exactly one, or none when absent |
| `ChatClient.ChatProvider.ReceiveNewMessage` | client/context/ChatContext.jsx:67-80 | a push from the selected user is appended marked seen with one mark request and the unseen map unchanged; any other push bumps its sender's count and leaves messages unchanged |
| `AuthClient.AuthProvider.constructor` | client/context/AuthContext.jsx:39-42 | the token comes from local storage; no user, no socket, no online users |
| `AuthClient.AuthProvider.ConnectSocket` | client/context/AuthContext.jsx:116-132 | a no-op without a user or while the socket is connected; otherwise a new connected socket whose query `userId` is the user's id |
| `AuthClient.AuthProvider.CheckAuth` | client/context/AuthContext.jsx:47-57 | on success the server's user becomes the logged-in user and a socket is connected for them; otherwise nothing changes |
| `AuthClient.SkipsConnect` | client/context/AuthContext.jsx:117 | connecting is skipped without a user and whenever a socket is already connected; a connect goes ahead only for a user with no connected socket |
| `AuthClient.AuthProvider.Mount` | client/context/AuthContext.jsx:139-144 | the token header is set only when a token exists, then the authentication check runs: on success the user is set and a socket connected per the connect guard, otherwise user and socket are unchanged; tokens and the online list are unchanged |
| `AuthClient.AuthProvider.Login` | client/context/AuthContext.jsx:68-85 | on success the user is set, a new socket is connected unless one already was (then the socket stays as it was), and state, header and storage hold the new token; a failure or rejection changes nothing |
| `AuthClient.AuthProvider.Logout` | client/context/AuthContext.jsx:92-100 | token, storage, header, user and online list are cleared; the socket is disconnected, and the call throws at the end when there is none |
| `AuthClient.AuthProvider.OnlineUsersEvent` | client/context/AuthContext.jsx:129-131 | the online list is replaced wholesale by the event's payload |
| `LoginPage.Next` | client/src/pages/LoginPage.jsx:17-31 | only a submit calls `login`, at most once and with the current fields; only an edit changes a field; only the two links change the mode; no handler leads to Login mode with the data-submitted flag set |
| `LoginPage.ShowsFullName` | client/src/pages/LoginPage.jsx:66 | the Full Name input shows only in Sign up mode, and only together with email and password |
| `LoginPage.ShowsEmailAndPassword` | client/src/pages/LoginPage.jsx:81 | in a one-step state, Login mode always shows email and password |
| `LoginPage.ShowsBio` | client/src/pages/LoginPage.jsx:106 | the bio shows only in Sign up mode, and then without the name, email and password inputs |
| `LoginPage.RunKeepsLoginOneStep` | client/src/pages/LoginPage.jsx:142-145 | any sequence of handlers keeps Login mode one-step |
| `LoginPage.ReachableIsLoginOneStep` | client/src/pages/LoginPage.jsx:7-12 | from the initial Sign up state, every reachable state keeps Login mode one-step |
| `LoginPage.RunExtendsCalls` | client/src/pages/LoginPage.jsx:25-30 | handlers only append `login` calls, at most one each, and never retract one |
| `LoginPage.SubmitCallsLoginOnce` | client/src/pages/LoginPage.jsx:17-31 | the first sign-up submit only sets the flag; any other submit calls `login` once, with "signup" exactly in Sign up mode, carrying all four fields |
| `LoginPage.OneStepVisible` | client/src/pages/LoginPage.jsx:66-116 | in a reachable state either the email and password inputs show or the bio shows, never both; Full Name shows only with them; Login mode shows only email and password |
| `LoginPage.LoginForm.constructor` | client/src/pages/LoginPage.jsx:7-12 | starts in Sign up with the flag clear, empty fields and no calls |
| `LoginPage.LoginForm.OnSubmit` | client/src/pages/LoginPage.jsx:17-31 | performs the submit transition and keeps Login mode one-step |
| `LoginPage.LoginForm.OnLoginHere` | client/src/pages/LoginPage.jsx:142-145 | switches to Login and clears the flag |
| `LoginPage.LoginForm.OnClickHere` | client/src/pages/LoginPage.jsx:155 | switches to Sign up and leaves the flag unchanged |
| `LoginPage.LoginForm.OnBackArrow` | client/src/pages/LoginPage.jsx:50 | clears the flag and leaves the mode unchanged |
| `LoginPage.LoginForm.OnFullNameChange` | client/src/pages/LoginPage.jsx:68 | changes only the name, which is editable only while shown |
| `LoginPage.LoginForm.OnEmailChange` | client/src/pages/LoginPage.jsx:84 | changes only the email, which is editable only while shown |
| `LoginPage.LoginForm.OnPasswordChange` | client/src/pages/LoginPage.jsx:94 | changes only the password, which is editable only while shown |
| `LoginPage.LoginForm.OnBioChange` | client/src/pages/LoginPage.jsx:108 | changes only the bio, which is editable only while shown |
| `EndToEnd.BumpedAllCounts` | client/context/ChatContext.jsx:72-79 | bumping once per push to me adds, per sender, the number of those pushes |
| `EndToEnd.ClientCountersMatchStore` | server/controllers/messageController.js:24-29 | counters seeded from a sidebar load and bumped for pushes from unviewed senders equal the sidebar's count over the grown store |

## Left out

- The presence registry (`userSocketMap` registration, deregistration and the `getOnlineUsers` broadcast) lives in `server.js`, which is not part of this model. The map is an input to sending.
- Store failures of the queries and updates (`User.find`, `Message.find`, `updateMany`, `findByIdAndUpdate`, `findOne`, `User.create`) and bcrypt failures are not modelled: their catch blocks only answer `success: false`. The failures that decide an outcome are modelled: the image upload and the create in `sendMessage`, and the picture upload in `updateProfile`.
- The User and Message schemas are not part of this model. A new account's `profilePic` is taken as empty; creation timestamps are replaced by creation order.
- `Promise.all` in the sidebar query runs its per-user counts concurrently. They write distinct keys, so they are modelled as a sequential loop. Client request races are not modelled: each handler runs to completion with its reply given.
- Toast notifications and console logging are not modelled. `ChatContext.jsx` calls `toast.error` without importing `toast`, so its failure branches throw a ReferenceError instead of notifying; the chat state is left unchanged either way, which is what the model states.
- Request fields that are `undefined` are modelled as empty strings. The two are treated alike by the presence checks the source makes (`userController.js:25`, `userController.js:109`, `messageController.js:115`), but not everywhere; the next two lines name the differences.
- `Accounts.AccountServer.Login`: an absent password is modelled as the empty string and reaches the hash comparison, failing as "Invalid credentials"; in the source bcrypt rejects an `undefined` password with its own "Illegal arguments" error.
- `Accounts.UpdateProfileFields`: an absent `bio` or `fullName` is written as the empty string; in the source the store either drops an `undefined` key or writes null, never an empty string.
- Server requests are modelled one at a time: each controller runs to completion before the next starts. The source awaits between its steps, so requests can interleave. The one-account-per-email invariant (`Accounts.AccountServer.Valid`) depends on this, or on a unique index in the schema, which is not part of this model: two concurrent sign-ups with the same email can both pass the `findOne` check before either `create`. `MessageStore.MessageServer.GetMessages` likewise treats its `find` and `updateMany` as one step; a message created between them is marked seen without being returned.
- `MessageStore.Select`: states which records come back and how many times each (so the length), but not that they come back in store order. `MessageStore.SelectAppend` and `MessageStore.CreatedMessageEndsConversation` state the order facts used.
- `ChatClient.ChatProvider.ReceiveNewMessage`: the socket library calls every listener; the invariant leaves at most one, so the model applies that one.
- `ChatClient`: the selected user and the sidebar's user records are reduced to their ids, which is all the context reads of them. The in-place `newMessage.seen = true` is modelled as an updated copy.
- `AuthClient.AuthProvider.ConnectSocket`: the socket's asynchronous handshake is not modelled. A new socket is taken as connected at once, so the window in which a second call would open another socket is not captured.
- `AuthClient.AuthProvider.OnlineUsersEvent`: requires a connected socket, because events only arrive over one. Network disconnects are not modelled; only `logout` disconnects.
- The auth context's `updateProfile`, `client/src/main.jsx` routing, and all JSX rendering and styling are outside the modelled core. The login page keeps only its state variables and the visibility conditions.
- React batches state updates. Each handler is modelled as applying its setters immediately, in order.
