# Desktop portfolio: verified model of its interactive core

This project is a Dafny model of the logic behind a browser "desktop" portfolio. It covers:

- the **Snake** game engine: the 20 x 20 board, key steering, the move timer, food placement and the score;
- the **Contact** form: the four inputs, validation, the form data sent, and the submit state machine;
- the **Memes** window: normalising the feed's answer, the banned-word filter, and the built-in fallback memes;
- the **Memes** and **Snake** application classes: configuration, menu, and the window they open;
- **About** navigation: the sub-view state machine, the contact links, and following the screen resolution;
- the **renderer overlay**: the 12-hour clock, the sound toggle, the camera buttons, and the once-only typing animation;
- the **boot screen**: the column spacer, the abort-guarded asset load, the once-only boot completion, and render gating.

Each source file is one module. Files that update state step by step are classes whose methods say what they change:

- `SnakeView.SnakeGame`, `ContactView.ContactForm`, `MemesView.MemesViewState`;
- `AboutView.AboutWindow`, `RendererUI.SoundManagement`, `RendererUI.NameAndTime`, `SceneLoader.BootScreen`.

Pure rules are functions with lemmas. Random numbers, network answers, clocks and screen queries cannot be computed by the model, so they are parameters of the methods that use them. The shell the applications talk to (`ApplicationModel.Environment`) is a log of the calls it receives.

## Model

| member | source | states |
|---|---|---|
| SnakeView.DirectionFor | apps/desktop/applications/Snake/SnakeView.tsx:11-20 | every key in the table maps to one of the four unit moves |
| SnakeView.Steer | apps/desktop/applications/Snake/SnakeView.tsx:114-123 | a key yields a direction exactly when the table knows the (lower-cased single-character) key and the direction is not the reverse of the current one |
| SnakeView.KeyIsMapped | apps/desktop/applications/Snake/SnakeView.tsx:11-20 | exactly the four arrow keys and w, a, s, d in either case name a direction |
| Text.LowerChar | apps/desktop/applications/Snake/SnakeView.tsx:114 | a capital letter becomes its lower-case letter, every other character is kept, and no capital letter is left |
| Text.Lower | apps/desktop/applications/Memes/MemesView.tsx:29-51 | lower-casing keeps the length and lower-cases each character on its own |
| SnakeView.NormalizeKey | apps/desktop/applications/Snake/SnakeView.tsx:114 | a one-character key is lower-cased and a longer key name is kept as it is |
| SnakeView.LetterCaseIgnored | apps/desktop/applications/Snake/SnakeView.tsx:114 | every single-character key, so W, A, S, D among them, steers as its lower-case form |
| SnakeView.QuickTurnsReverse | apps/desktop/applications/Snake/SnakeView.tsx:120-126 | the reverse check compares with the last direction set, so two quick turns reverse the snake before it moves |
| SnakeView.InitialSnake | apps/desktop/applications/Snake/SnakeView.tsx:22-25 | a new snake is one segment, on the board |
| SnakeView.NextHead | apps/desktop/applications/Snake/SnakeView.tsx:72-73 | with a unit direction the new head is a neighbouring cell of the old head |
| SnakeView.Collides | apps/desktop/applications/Snake/SnakeView.tsx:75-83 | a move ends the game exactly when the head leaves the board or lands on a segment, the tail segment counting only when the snake grows |
| SnakeView.GridCells | apps/desktop/applications/Snake/SnakeView.tsx:8 | the board's cells are exactly the points with both coordinates in 0..19 |
| SnakeView.GridCellsCount | apps/desktop/applications/Snake/SnakeView.tsx:8 | the board has 400 cells |
| SnakeView.DistinctCellsCount | apps/desktop/applications/Snake/SnakeView.tsx:91-99 | a snake without overlapping segments covers as many cells as it has segments |
| SnakeView.FreeCellExists | apps/desktop/applications/Snake/SnakeView.tsx:93-96 | a snake of fewer than 400 distinct segments leaves a free cell for the food |
| SnakeView.DistinctFitsGrid | apps/desktop/applications/Snake/SnakeView.tsx:91-96 | a snake without overlaps has at most 400 segments |
| SnakeView.FullSnakeLeavesNoCell | apps/desktop/applications/Snake/SnakeView.tsx:27-36 | with 400 segments every cell is occupied, so the food search cannot succeed |
| SnakeView.RandomPosition | apps/desktop/applications/Snake/SnakeView.tsx:27-36 | the drawn food cell is on the board and not occupied, for any occupied set leaving a free cell |
| SnakeView.BodyToCheck | apps/desktop/applications/Snake/SnakeView.tsx:82 | the head may not land on any segment when eating, or on any but the tail otherwise |
| SnakeView.Advance | apps/desktop/applications/Snake/SnakeView.tsx:91-99 | the moved snake has the new head first and each other segment on its predecessor's cell, one longer when eating |
| SnakeView.AdvanceKeepsShape | apps/desktop/applications/Snake/SnakeView.tsx:75-101 | a move that hits neither wall nor body keeps the snake on the board without overlaps |
| SnakeView.SnakeGame.constructor | apps/desktop/applications/Snake/SnakeView.tsx:39-47 | a new game: snake [(10,10)] heading right, score 0, running, not over, unfocused, food off the snake |
| SnakeView.SnakeGame.Reset | apps/desktop/applications/Snake/SnakeView.tsx:50-59 | restart restores the new-game state with fresh food off the snake and keeps the focus flag |
| SnakeView.SnakeGame.Focus | apps/desktop/applications/Snake/SnakeView.tsx:165 | focusing the board sets the focus flag |
| SnakeView.SnakeGame.Blur | apps/desktop/applications/Snake/SnakeView.tsx:166 | leaving the board clears the focus flag |
| SnakeView.SnakeGame.HandleKeyDown | apps/desktop/applications/Snake/SnakeView.tsx:109-127 | without focus or after game over nothing changes; otherwise the direction becomes the steered one and the key is consumed exactly then; the game invariant is kept |
| SnakeView.SnakeGame.Tick | apps/desktop/applications/Snake/SnakeView.tsx:65-106 | idle when not running; a wall or body hit ends the game leaving the snake; otherwise the snake advances, grows by one and scores 10 when eating, and new food lands off the snake, except that a meal which fills the whole board ends the game with no new food; the invariant (on board, no overlap, score = 10 per meal, running iff not over) is kept |
| SnakeView.ScoreIsMultipleOfTen | apps/desktop/applications/Snake/SnakeView.tsx:94 | the score is a non-negative multiple of 10 |
| ContactView.WithField | apps/desktop/applications/Contract/ContactView.tsx:44-46 | a change sets the named input and leaves the other three as they were |
| ContactView.Errors | apps/desktop/applications/Contract/ContactView.tsx:85-95 | the error list holds exactly the errors that apply, each once, in the order empty-name, empty-email, empty-message, invalid-email |
| ContactView.ContactForm.IsFormValid | apps/desktop/applications/Contract/ContactView.tsx:81-83 | the current inputs are valid exactly when name, email and message are non-empty and the email is an email |
| ContactView.FormValidIff | apps/desktop/applications/Contract/ContactView.tsx:81-83 | the form is valid exactly when name, email and message are non-empty and the email is an email |
| ContactView.LookupFirst | apps/desktop/applications/Contract/ContactView.tsx:57-69 | reading a key from form data finds the value of its first entry |
| ContactView.LookupMissing | apps/desktop/applications/Contract/ContactView.tsx:57-69 | a key no entry carries reads as absent |
| ContactView.Payload | apps/desktop/applications/Contract/ContactView.tsx:57-69 | the form data has seven entries, or eight with a non-empty company, and any company entry carries the non-empty company |
| ContactView.PayloadKeys | apps/desktop/applications/Contract/ContactView.tsx:58-68 | the form data carries name, email, message, then company only when non-empty, then the subject, reply-to, captcha and template fields |
| ContactView.PayloadValues | apps/desktop/applications/Contract/ContactView.tsx:58-64 | name, email and message read back the inputs; company reads back the input when non-empty and is absent when empty |
| ContactView.PayloadFixedFields | apps/desktop/applications/Contract/ContactView.tsx:65-68 | the subject is the fixed subject, reply-to is the sender's email, captcha is "false" and the template is "table" |
| ContactView.ContactForm.constructor | apps/desktop/applications/Contract/ContactView.tsx:32-42 | the form starts with four empty inputs, no errors, no send error, not submitting and not submitted |
| ContactView.ContactForm.HandleChange | apps/desktop/applications/Contract/ContactView.tsx:44-46 | the named input takes the new value, the others are unchanged |
| ContactView.ContactForm.ResetInput | apps/desktop/applications/Contract/ContactView.tsx:48-55 | all four inputs become empty |
| ContactView.ContactForm.ValidateForm | apps/desktop/applications/Contract/ContactView.tsx:85-95 | the pushed list equals the specified error list |
| ContactView.ContactForm.SubmitEnabled | apps/desktop/applications/Contract/ContactView.tsx:238 | the submit button is enabled exactly when the four checks pass and no send is in flight |
| ContactView.ContactForm.HandleFromErrors | apps/desktop/applications/Contract/ContactView.tsx:97-107 | every current error is added to the displayed set and none is removed |
| ContactView.ContactForm.BuildPayload | apps/desktop/applications/Contract/ContactView.tsx:57-69 | the appended form data equals the specified payload |
| ContactView.ContactForm.OnSubmit | apps/desktop/applications/Contract/ContactView.tsx:109-133 | a valid form sends its payload once and stays submitting; an invalid one sends nothing, shows its errors and stops submitting; either way the confirmation and send error are cleared |
| ContactView.ContactForm.SendSettled | apps/desktop/applications/Contract/ContactView.tsx:117-128 | success confirms, clears inputs and errors; failure shows the retry message and keeps inputs and errors; submitting ends either way |
| ContactView.ContactForm.SendAnother | apps/desktop/applications/Contract/ContactView.tsx:165-168 | "Send Another Message" hides the confirmation and clears the send error |
| MemesView.OrElse | apps/desktop/applications/Memes/MemesView.tsx:104-106 | a missing or empty string falls back to the default, any other string is kept |
| MemesView.TrimStart | apps/desktop/applications/Memes/MemesView.tsx:105 | drops exactly the leading white space |
| MemesView.TrimEnd | apps/desktop/applications/Memes/MemesView.tsx:105 | drops exactly the trailing white space |
| MemesView.Trim | apps/desktop/applications/Memes/MemesView.tsx:105 | the caption is a middle part of the title, only white space is dropped around it, and it neither starts nor ends with white space |
| MemesView.Contains | apps/desktop/applications/Memes/MemesView.tsx:113 | a word matches exactly when it occurs at some position of the text, ignoring case |
| MemesView.MatchShift | apps/desktop/applications/Memes/MemesView.tsx:113 | an occurrence is at the first position or in the rest of the text |
| MemesView.MatchesAny | apps/desktop/applications/Memes/MemesView.tsx:29-51 | the text is filtered exactly when some banned word occurs in it |
| MemesView.BannedIgnoresCase | apps/desktop/applications/Memes/MemesView.tsx:29-51 | a text and its lower-cased form are filtered alike |
| MemesView.HelloIsBanned | apps/desktop/applications/Memes/MemesView.tsx:45 | the match is unanchored: "hello" is filtered through "hell" |
| MemesView.ShellIsBanned | apps/desktop/applications/Memes/MemesView.tsx:45 | case and position are ignored: "Shell" is filtered |
| MemesView.ContainsInConcat | apps/desktop/applications/Memes/MemesView.tsx:112 | a match in either part of a concatenation is a match in the whole |
| MemesView.ContainsInJoin | apps/desktop/applications/Memes/MemesView.tsx:112 | a match in one tag is a match in the joined tags |
| MemesView.Join | apps/desktop/applications/Memes/MemesView.tsx:112 | joining nothing gives the empty text; otherwise the joined text starts with the first tag |
| MemesView.Content | apps/desktop/applications/Memes/MemesView.tsx:112 | the content is the caption, one space, then the joined tags |
| MemesView.Banned | apps/desktop/applications/Memes/MemesView.tsx:113 | a content is filtered exactly when some banned word occurs in it |
| MemesView.BannedPartBansContent | apps/desktop/applications/Memes/MemesView.tsx:112-115 | a banned word in the caption or in any single tag rejects the meme |
| MemesView.Decide | apps/desktop/applications/Memes/MemesView.tsx:104-117 | a body is accepted exactly when it has an image and its caption and tags mention no banned word; the accepted meme has the url, the trimmed title, the tags or none, and source r/ plus the payload's subreddit or else the requested one |
| MemesView.Outcome | apps/desktop/applications/Memes/MemesView.tsx:96-117 | a failed request or a non-OK status is a request failure; only a body can be accepted |
| MemesView.FallbacksAreOffline | apps/desktop/applications/Memes/MemesView.tsx:53-84 | there are five built-in memes, each with an image, no tags and the offline source |
| MemesView.MemesViewState.constructor | apps/desktop/applications/Memes/MemesView.tsx:87-89 | no meme, not loading, no error |
| MemesView.MemesViewState.StartFetch | apps/desktop/applications/Memes/MemesView.tsx:93-95 | loading starts, the error is cleared and one of the five subreddits is requested |
| MemesView.MemesViewState.FinishFetch | apps/desktop/applications/Memes/MemesView.tsx:117-129 | an accepted meme is shown; any failure shows the picked built-in meme with the backup-feed message; loading ends either way |
| ApplicationModel.Environment.CompositorOpen | apps/desktop/applications/Memes/Memes.ts:50-59 | a window request is appended to the shell's log |
| ApplicationModel.Environment.BaseHandler | apps/desktop/applications/Memes/Memes.ts:42 | the base handler's call is appended to the shell's log |
| ApplicationModel.OpenRequests | apps/desktop/applications/Memes/Memes.ts:50-59 | every request listed is the request of an open call in the log, and every open call's request is listed; there are no more requests than calls |
| ApplicationModel.OpenRequestsAppend | apps/desktop/applications/Memes/Memes.ts:41-61 | the window requests of two logs in sequence are those of each, in order |
| ApplicationModel.CenteredX | apps/desktop/applications/Memes/Memes.ts:47 | the window's left edge centres it: 2 x + width = innerWidth, unclamped, so negative on narrow viewports |
| MemesApp.Entrypoint | apps/desktop/applications/Memes/Memes.ts:17-21 | the entrypoint makes a new application bound to the given shell |
| MemesApp.MemesApplication.Config | apps/desktop/applications/Memes/Memes.ts:11-29 | the configuration is named "Memes", has no dock priority, and its path and app name make up /Applications/Memes.app |
| MemesApp.MemesApplication.MenuEntries | apps/desktop/applications/Memes/Memes.ts:31-39 | one bold menu entry named after the application, with no items |
| MemesApp.MemesApplication.Reaction | apps/desktop/applications/Memes/Memes.ts:41-61 | exactly two calls for an open event and one otherwise: the base handler first, then for an open event exactly one 520 x 640 window at y 120, centred, titled with the display name, owned by the application and carrying the event's arguments; other events open nothing |
| MemesApp.MemesApplication.On | apps/desktop/applications/Memes/Memes.ts:41-61 | handling an event appends exactly the reaction's calls to the shell's log |
| MemesApp.OneWindowPerOpen | apps/desktop/applications/Memes/Memes.ts:44-60 | each open event adds exactly one window and no other event adds any |
| SnakeApp.Entrypoint | apps/desktop/applications/Snake/Snake.ts:17-21 | the entrypoint makes a new application bound to the given shell |
| SnakeApp.SnakeApplication.Config | apps/desktop/applications/Snake/Snake.ts:11-29 | the configuration is named "Snake", has no dock priority, and its path and app name make up /Applications/Snake.app |
| SnakeApp.SnakeApplication.MenuEntries | apps/desktop/applications/Snake/Snake.ts:31-39 | one bold menu entry named after the application, with no items |
| SnakeApp.SnakeApplication.Reaction | apps/desktop/applications/Snake/Snake.ts:41-61 | exactly two calls for an open event and one otherwise: the base handler first, then for an open event exactly one centred 520 x 640 window at y 120 titled "Snake" with the event's arguments; other events open nothing |
| SnakeApp.SnakeApplication.On | apps/desktop/applications/Snake/Snake.ts:41-61 | handling an event appends exactly the reaction's calls to the shell's log |
| SnakeApp.OneWindowPerOpen | apps/desktop/applications/Snake/Snake.ts:44-60 | each open event adds exactly one window and no other event adds any |
| AboutView.RenderSubView | apps/desktop/applications/About/AboutView.tsx:482-495 | home, about, experience and projects render their pages; contact renders an empty element |
| AboutView.RenderingSeparatesViews | apps/desktop/applications/About/AboutView.tsx:482-495 | distinct storable views render distinct, non-empty pages |
| AboutView.MobileClass | apps/desktop/applications/About/AboutView.tsx:67 | the mobile style class is applied exactly when the mobile view is needed |
| AboutView.NextSubView | apps/desktop/applications/About/AboutView.tsx:556-563 | any choice but contact becomes the stored view; contact keeps the stored one |
| AboutView.Replay | apps/desktop/applications/About/AboutView.tsx:556-563 | starting from a view other than contact, no sequence of choices stores contact |
| AboutView.ReplaySnoc | apps/desktop/applications/About/AboutView.tsx:556-563 | replaying one more choice is one more navigation step |
| AboutView.ReplayShowsLastPage | apps/desktop/applications/About/AboutView.tsx:556-563 | after any sequence of choices the stored view is the last choice that was not contact, or the starting view |
| AboutView.AboutWindow.constructor | apps/desktop/applications/About/AboutView.tsx:500-501 | the window starts on the home view, not in mobile mode, unsubscribed, with no calls made |
| AboutView.AboutWindow.ChangeParent | apps/desktop/applications/About/AboutView.tsx:556-563 | contact dispatches one about-open-contact event with the window's context and keeps the view; any other choice is stored and dispatches nothing; the stored view is never contact |
| AboutView.AboutWindow.OpenContactApp | apps/desktop/applications/About/AboutView.tsx:24-26 | each contact link asks the manager to open /Applications/Contact.app once |
| AboutView.AboutWindow.OnScreenChange | apps/desktop/applications/About/AboutView.tsx:535-537 | the mobile flag follows the latest resolution delivered |
| AboutView.AboutWindow.Mount | apps/desktop/applications/About/AboutView.tsx:539-546 | mounting subscribes and then applies the current resolution when there is one |
| AboutView.AboutWindow.Unmount | apps/desktop/applications/About/AboutView.tsx:547-549 | unmounting releases the subscription |
| AboutView.AboutWindow.StyleClass | apps/desktop/applications/About/AboutView.tsx:109 | the navigation uses the mobile class exactly when the latest applied resolution is a mobile device |
| RendererUI.Decimal | apps/web/components/renderer/RendererUI.tsx:102 | decimal digits of a number, one digit below 10 and two below 100 |
| RendererUI.DecimalRoundTrip | apps/web/components/renderer/RendererUI.tsx:102 | the decimal digits of a number read back as that number |
| RendererUI.PadTwo | apps/web/components/renderer/RendererUI.tsx:102 | padding to two places yields two characters and leaves longer text alone |
| RendererUI.PadTwoValue | apps/web/components/renderer/RendererUI.tsx:102 | a padded minute reads back as the minute |
| RendererUI.Hour12 | apps/web/components/renderer/RendererUI.tsx:103 | the 12-hour reading is in 1..12, is 12 exactly at hours 0 and 12, and otherwise the hour mod 12 |
| RendererUI.Suffix | apps/web/components/renderer/RendererUI.tsx:104 | the suffix is PM exactly from hour 12 on, and AM before |
| RendererUI.FormatTime | apps/web/components/renderer/RendererUI.tsx:100-107 | the time reads H:MM or HH:MM, then a space and AM or PM: hour digits, a colon, two minute digits, a space and the suffix |
| RendererUI.Hours24Inverse | apps/web/components/renderer/RendererUI.tsx:103-104 | the 12-hour reading and the suffix determine the 24-hour hour |
| RendererUI.ParseLayout | apps/web/components/renderer/RendererUI.tsx:106 | the layout hour, colon, minutes, space, suffix can be split back into its parts |
| RendererUI.FormatTimeRoundTrip | apps/web/components/renderer/RendererUI.tsx:100-107 | a formatted time reads back as the hour and minute it was made from |
| RendererUI.SoundService.EnableSound | apps/web/components/renderer/RendererUI.tsx:22 | the service records an enable call |
| RendererUI.SoundService.DisableSound | apps/web/components/renderer/RendererUI.tsx:27 | the service records a disable call |
| RendererUI.SoundManagement.constructor | apps/web/components/renderer/RendererUI.tsx:10 | for any service, sound starts enabled without calling it, and flag and service are in step for every call from then on |
| RendererUI.SoundManagement.EnableSound | apps/web/components/renderer/RendererUI.tsx:20-23 | the flag is set and the service enabled |
| RendererUI.SoundManagement.DisableSound | apps/web/components/renderer/RendererUI.tsx:25-28 | the flag is cleared and the service disabled |
| RendererUI.SoundManagement.ToggleSound | apps/web/components/renderer/RendererUI.tsx:12-18 | the flag flips and the service receives the call matching its new value, so flag and service stay in step |
| RendererUI.ButtonsActive | apps/web/components/renderer/RendererUI.tsx:183-194 | the buttons are active exactly in the states that pressing the camera button twice returns to, namely cinematic and monitor view |
| RendererUI.ButtonTarget | apps/web/components/renderer/RendererUI.tsx:194 | the camera button targets the monitor view from cinematic and cinematic from anything else |
| RendererUI.ButtonToggles | apps/web/components/renderer/RendererUI.tsx:183-194 | where the buttons show, the camera button leaves the current state and pressing it twice returns |
| RendererUI.NameAndTimeActive | apps/web/components/renderer/RendererUI.tsx:98 | the name and time block shows in the one named camera state where the buttons bar does not, that is free roam; see OverlaysExclusive |
| RendererUI.OverlaysExclusive | apps/web/components/renderer/RendererUI.tsx:98-186 | the buttons bar and the name and time block (shown exactly in free roam) are never active in the same camera state, and each of cinematic, monitor view and free roam shows exactly one of them |
| RendererUI.CameraHandler.ChangeState | apps/web/components/renderer/RendererUI.tsx:74 | the handler records the requested state |
| RendererUI.ChangeScene | apps/web/components/renderer/RendererUI.tsx:72-75 | with no handler nothing happens; otherwise the handler is asked for the target once |
| RendererUI.WriteOutSchedule | apps/web/components/renderer/RendererUI.tsx:114-132 | the name starts at once, the title after it, the time after the title, the clock loop no earlier than the time, and done last |
| RendererUI.ScheduleOrdered | apps/web/components/renderer/RendererUI.tsx:119-132 | the title starts after the name is typed, the time after the title, the clock loop when the time is typed, and done one delay later than all of them |
| RendererUI.DoneAfterTyping | apps/web/components/renderer/RendererUI.tsx:114-132 | for this name and title, done comes 1610 ms or 1645 ms after the write-out starts, for a 7- or 8-character time |
| RendererUI.NameAndTime.constructor | apps/web/components/renderer/RendererUI.tsx:91 | the write-out has not happened yet |
| RendererUI.NameAndTime.OnStateChange | apps/web/components/renderer/RendererUI.tsx:135-143 | the write-out starts on the first change into free roam and never again; other states change nothing |
| SceneLoader.Repeat | apps/web/components/scene-loader/SceneLoader.tsx:12 | the fill repeated n times has n times its length |
| SceneLoader.FillCount | apps/web/components/scene-loader/SceneLoader.tsx:12 | the fill count is the fewest rounds that bring the source up to length - 1 characters: source plus count reaches length - 1, and lands exactly on it whenever the fill is written at all |
| SceneLoader.Spacer | apps/web/components/scene-loader/SceneLoader.tsx:9-15 | the spacer holds two non-breaking spaces plus the fill once per loop round, and starts and ends with a non-breaking space |
| SceneLoader.CreateSpacer | apps/web/components/scene-loader/SceneLoader.tsx:9-15 | the spacer is a non-breaking space, the fill repeated the loop's count times, and a closing non-breaking space |
| SceneLoader.SpacerShape | apps/web/components/scene-loader/SceneLoader.tsx:9-15 | the spacer starts and ends with a non-breaking space, and with a one-character fill every position between is the fill |
| SceneLoader.RepeatOneChar | apps/web/components/scene-loader/SceneLoader.tsx:12 | a repeated one-character fill consists of that character only |
| SceneLoader.ColumnsAlign | apps/web/components/scene-loader/SceneLoader.tsx:9-15 | with a one-character fill and a source that fits, source plus spacer take length + 1 characters |
| SceneLoader.OverlongSourceGetsTwoSpaces | apps/web/components/scene-loader/SceneLoader.tsx:12 | a source of at least length - 1 characters gets just two non-breaking spaces |
| SceneLoader.StatsLinesAlign | apps/web/components/scene-loader/SceneLoader.tsx:17-31 | both stats lines put their second column at character 17 |
| SceneLoader.CompletionWait | apps/web/components/scene-loader/SceneLoader.tsx:204-207 | completion waits max(0, 3000 - elapsed) ms, so it never hides anything before 3000 ms |
| SceneLoader.BootScreen.constructor | apps/web/components/scene-loader/SceneLoader.tsx:137-149 | loading, with progress, message and underscore shown, boot not completed, no WebGL answer yet |
| SceneLoader.BootScreen.DetectWebGL | apps/web/components/scene-loader/SceneLoader.tsx:151-201 | WebGL support is recorded and, when present, the initial progress, which starts the completion once if it already reports done |
| SceneLoader.BootScreen.FinishLoad | apps/web/components/scene-loader/SceneLoader.tsx:184-187 | the loaded actions are kept and loading ends only if the load was not aborted |
| SceneLoader.BootScreen.Unmount | apps/web/components/scene-loader/SceneLoader.tsx:192-194 | unmounting aborts the load |
| SceneLoader.BootScreen.OnLoadingProgress | apps/web/components/scene-loader/SceneLoader.tsx:197-201 | completion starts once, the first time progress reports done, with its wait recorded |
| SceneLoader.BootScreen.CompleteBoot | apps/web/components/scene-loader/SceneLoader.tsx:209-219 | progress and underscore are hidden; the message is hidden too in debug mode or off mobile devices |
| SceneLoader.BootScreen.Continue | apps/web/components/scene-loader/SceneLoader.tsx:231 | Continue hides the message |
| SceneLoader.BootScreen.Render | apps/web/components/scene-loader/SceneLoader.tsx:225-239 | nothing renders before WebGL is detected, the error view without WebGL, and otherwise the scene with each overlay shown by its flag |
| SceneLoader.CompletionOnce | apps/web/components/scene-loader/SceneLoader.tsx:200-201 | no more than one completion is ever started |

## Left out

- Rendering, styles, i18n lookups, `console` logging and scrolling (`resetSubPageScroll`) are not modelled; they decide nothing the model states.
- Timers and React scheduling are not modelled. Each interval firing, timeout and settled promise is one method call, made in the order the source schedules them. React's batching of state updates is not modelled.
- SnakeView.SnakeGame.constructor / Reset: the mount effect (SnakeView.tsx:62) and `resetGame`'s `requestAnimationFrame` (SnakeView.tsx:58) focus the board, which fires `onFocus` and sets `hasFocus`. The model does not focus the board itself; that DOM focus is a later `Focus()` call, so a new game starts unfocused and a reset keeps whatever flag it had until then.
- Randomness is a parameter: food cells are drawn by `RandomPosition`, and the subreddit and fallback picks are indices passed in.
- SnakeView.RandomPosition: does not draw the same rejected cell twice. The source may redraw it, so the model's draws are not the source's sequence; only the set of possible results is the same.
- SnakeView.RandomPosition: requires a free cell, because the source never returns without one. `Tick` only calls it when one exists; see Findings.
- Key names that are properties of every JavaScript object (such as "constructor") are treated as unknown keys. Real key events never carry them.
- JavaScript's `toLowerCase` is modelled as ASCII lower-casing. For single-character keys only W, A, S, D matter. For the banned-word patterns (case-insensitive, non-unicode), no non-ASCII character folds onto an ASCII letter.
- MemesView.Contains: the regular-expression patterns are plain words matched without case. `drugs?` becomes "drug", which matches exactly the same texts.
- `isEmpty` and `isEmail` of components/util are not part of this model. The Contact form is stated for any pair of such tests, passed in as `ContactView.Util`.
- `writeOutChars` and `writeOutCharsStreaming` of renderer/util are not part of this model. The write-out schedule assumes one character per 35 ms delay, the rate they are given.
- ApplicationManager, the window compositor, the screen service, ApplicationEvents and the shared base handler are not part of this model. Their calls are recorded in `ApplicationModel.Environment` and `AboutView.AboutWindow` in call order; their effects are not modelled.
- The window generator is recorded as the name of the view it loads.
- The camera handler's states other than cinematic, monitor view and free roam are not listed in the source shown. They are one constructor carrying a name.
- The asset manager, loaders, Three.js scenes and the sound service internals are not modelled. Loading progress is only its done flag, and update actions are opaque.
- The 1-second clock refresh after the write-out is not modelled beyond its start time.
- Network answers are the three outcomes a request can have (failure, non-OK status, body). JSON fields of the wrong type, and the unused `postLink` and `author`, are not modelled.
- The Contact form's destination URL and request headers are not modelled; only the form data is.
- MemesView.MemesViewState.FinishFetch: the "could not load" message branch is unreachable, because the built-in list is never empty. It is not stated.
- RendererUI.SoundManagement.constructor: the flag starts enabled without calling the service. After a remount, a service that was last disabled is out of step with the flag until the next toggle, so `Valid` only speaks of calls made since construction.
- SceneLoader.FillCount: lengths count Dafny characters, where `source.length` counts UTF-16 code units. A source with a character outside the Basic Multilingual Plane would get one fill more per such character than in JavaScript. The stats lines pass only ASCII text.
- SceneLoader.BootScreen.CompleteBoot: the 100 ms and 700 ms timers outside debug mode are merged into one step. The model states the final flags, not the 600 ms in which the progress is hidden but the underscore still shows.
- `ShowUserMessage` (the resize listener behind its mobile warning) and the static boot text are presentation and are not modelled.

## Findings

| source | as written | input that shows it | evidently intended | confidence | as-written member | corrected member |
|---|---|---|---|---|---|---|
| apps/desktop/applications/Snake/SnakeView.tsx:27-36 | when the snake eats and then covers all 400 cells, `getRandomPosition` is called with every cell occupied and its retry loop never ends | a snake of 399 segments whose head moves onto the food in the last free cell | the game ends (board full) instead of searching for a free cell | not executed | SnakeView.FullSnakeLeavesNoCell | SnakeView.SnakeGame.Tick |
