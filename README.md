# Team XOX portfolio: a verified model of its page logic

The Team XOX site is a Next.js/React portfolio. Most of it is layout, but a
few pieces of it are sequential logic with contracts worth stating. This
project models those pieces in Dafny and proves properties of them:

- the conjunctive list filters of the projects, blog and team pages, over
  their static data arrays, with the reset handlers and the small display
  rules on top (status badges, tag and technology overflow badges, "Clear
  Filters", the team page's error and empty views);
- the contact form's validator (trim-emptiness rules and the e-mail regular
  expression) and its `idle -> submitting -> success | error` flow;
- the description truncation and toggles of the member card (120
  characters, trimmed) and the older team-member card (150 characters,
  untrimmed);
- the skill bar's level and colour thresholds and its width animation state;
- the stat card's digit/suffix split and heading text;
- the newsletter sign-up state machine.

Modules follow the source files: `Projects`, `Blog`, `Members`, `Contact`,
`MemberCard`, `TeamMember`, `SkillBar`, `StatCard`, `Newsletter`. They share
`Types` (lib/types.ts), `Lists` (`Array.prototype.filter`), `Text`
(`toLowerCase`, `includes`, `trim`, white space), `Decimal` (digit strings),
`Badges` (the `slice(0, n)` plus `+k` badge pattern) and `Wrappers` (`Option`).

Pure code is written as functions and lemmas. A component's React state is
a class whose fields are the `useState` variables, and each handler is a
method with `modifies this`. A `setTimeout` or `await` wait is an explicit
method standing for "the timer fired", such as `CompleteSubmit`,
`TimerFires` or `ResetTimerFires`.

Strings are sequences of characters. `toLowerCase` maps `A`-`Z` only.
`trim` and the regular-expression class `\s` both use the ECMAScript white
space set (the WhiteSpace and LineTerminator code points).

## Model

| member | source | states |
|---|---|---|
| Lists.Filter | app/projects/page.tsx:148-161 | `xs.filter(keep)` is an order-preserving subsequence of `xs`, holds only elements that pass, and holds every element that passes |
| Lists.FilterCount | app/projects/page.tsx:149 | each value occurs in the result as often as in the input when it passes, and never otherwise |
| Lists.FilterIdempotent | app/projects/page.tsx:149 | filtering a filtered list again with the same test changes nothing |
| Lists.FilterFuse | app/projects/page.tsx:159 | filtering by `p` and then by `q` equals filtering once by `p && q` |
| Lists.FilterCommutes | app/projects/page.tsx:159 | two filters can be applied in either order |
| Lists.FilterAgree | app/projects/page.tsx:149 | two tests that agree on every element give the same result |
| Lists.FilterKeepsAll | app/projects/page.tsx:149 | a test every element passes keeps the whole list, unchanged |
| Lists.FilterDropsAll | components/stat-card.tsx:18 | a test no element passes gives the empty list |
| Lists.FilterAppend | components/stat-card.tsx:18-19 | filtering a concatenation is filtering each part and concatenating |
| Lists.FilterPartition | components/stat-card.tsx:18-19 | a test and its negation split a list: the lengths add up and the multisets add up to the input's |
| Text.ToLower | app/projects/page.tsx:151 | `toLowerCase` keeps the length and maps each character on its own |
| Text.ToLowerIdempotent | app/projects/page.tsx:151 | lower-casing twice is lower-casing once |
| Text.CapitalizeOnlyFirst | app/projects/page.tsx:348 | `charAt(0).toUpperCase() + slice(1)` changes at most the first character |
| Text.IncludesIffOccurs | app/projects/page.tsx:151 | `includes` holds exactly when the needle occupies some contiguous range of the haystack |
| Text.IncludesNeedsChar | app/members/page.tsx:160-162 | every character of an included needle occurs in the haystack |
| Text.IncludesEmpty | app/projects/page.tsx:151 | the empty term is included in every string |
| Text.Trim | app/contact/page.tsx:95 | `trim` returns the piece of the input left after removing a white-space prefix and a white-space suffix; that piece neither starts nor ends with white space, and it is empty exactly for an all-white-space input |
| Text.TrimUnique | components/member-card.tsx:21 | any split of a string into a white-space prefix, a middle piece with non-space ends, and a white-space suffix has that middle piece as its trim |
| Text.BlankIffAllWhitespace | app/contact/page.tsx:95 | the blank check holds exactly for strings of white space only |
| Text.BlankIffTrimEmpty | app/contact/page.tsx:95 | the blank check is `!s.trim()`: it holds exactly when trimming leaves nothing |
| Decimal.NatToString | app/projects/page.tsx:368 | the text of a whole number is non-empty, all digits, with no leading zero |
| Decimal.ParseNatToString | components/stat-card.tsx:18 | reading back the text of a number gives the number |
| Decimal.NatToStringInjective | app/projects/page.tsx:368 | different numbers have different texts |
| Badges.Overflow | app/projects/page.tsx:361-370 | `slice(0, limit)` shows the first `min(limit, n)` items; the hidden count is the rest, positive iff `n > limit` |
| Badges.MoreBadge | app/projects/page.tsx:366-369 | the badge exists iff items are hidden; it reads `+k more` with the word and `+k` without, where the digits `k` read back as the hidden count |
| Projects.FilterProjects | app/projects/page.tsx:148-161 | `filteredProjects` is an order-preserving subsequence holding exactly the projects that pass all four tests |
| Projects.ShowingCountBound | app/projects/page.tsx:316 | "Showing X of Y": there are 6 projects and X never exceeds 6 |
| Projects.SearchSemantics | app/projects/page.tsx:150-153 | a project matches iff the lower-cased term occurs in the lower-cased title, description or some technology; the long description, category, status and team never matter |
| Projects.EmptySearchMatchesAll | app/projects/page.tsx:150-153 | the empty term matches every project |
| Projects.CategoricalSemantics | app/projects/page.tsx:155-157 | `"All"` disables the category and status tests, any other value requires equality; featured-only keeps exactly featured projects |
| Projects.FeaturedOnlyKeepsFeatured | app/projects/page.tsx:157 | with only "Featured Only" on, the result is exactly the featured projects |
| Projects.DefaultFiltersKeepAll | app/projects/page.tsx:143-146 | the default state keeps every project |
| Projects.FilterProjectsIdempotent | app/projects/page.tsx:159 | re-filtering a result with the same state changes nothing |
| Projects.DimensionsInAnyOrder | app/projects/page.tsx:159 | the four tests applied one at a time, in the source's order or the reverse order, give the conjunctive result |
| Projects.CategoryAndSearchCommute | app/projects/page.tsx:159 | the category and search filters commute |
| Projects.CategoryOnlyFilter | app/projects/page.tsx:155 | with all other filters at their defaults, only the category decides |
| Projects.StatusOnlyFilter | app/projects/page.tsx:156 | with all other filters at their defaults, only the status decides |
| Projects.WebDevelopmentExample | app/projects/page.tsx:32-49 | on the static data, category "Web Development" yields exactly project 1 |
| Projects.WebDevelopmentCategory | app/projects/page.tsx:32-130 | of the six projects only project 1 has category "Web Development" |
| Projects.PlannedExample | app/projects/page.tsx:115-129 | on the static data, status "planned" yields exactly project 6 |
| Projects.PlannedStatus | app/projects/page.tsx:32-130 | of the six projects only project 6 has status "planned" |
| Projects.ClearFiltersIffNonDefault | app/projects/page.tsx:303 | "Clear Filters" is shown iff the filter state differs from the defaults |
| Projects.StatusColorsDistinct | app/projects/page.tsx:170-181 | the three known statuses get three distinct classes, and every other status gets the muted default |
| Projects.StatusLabels | app/projects/page.tsx:285 | the labels are "Completed", "In-progress" and "Planned"; "All" is written as is |
| Projects.TechBadges | app/projects/page.tsx:361-370 | a card shows the first `min(3, n)` technologies, with `n - 3` hidden iff `n > 3` |
| Projects.TechMoreBadge | app/projects/page.tsx:366-370 | a project card has an overflow badge iff it has more than three technologies, and it reads `+` then the count beyond three, then ` more` |
| Projects.ProjectsPage.constructor | app/projects/page.tsx:143-146 | the page starts with term `""`, category and status "All", featured-only off |
| Projects.ProjectsPage.SetSearchTerm | app/projects/page.tsx:241 | only the search term changes |
| Projects.ProjectsPage.SelectCategory | app/projects/page.tsx:262 | only the category changes |
| Projects.ProjectsPage.SelectStatus | app/projects/page.tsx:283 | only the status changes |
| Projects.ProjectsPage.ToggleFeaturedOnly | app/projects/page.tsx:298 | only the featured flag changes, and it flips |
| Projects.ProjectsPage.ResetFilters | app/projects/page.tsx:163-168 | the state is `""`, `"All"`, `"All"`, `false`, which keeps every list whole and hides "Clear Filters" |
| Blog.FeaturedPostsAreOneAndTwo | app/blog/page.tsx:141 | `featuredPosts` is posts 1 and 2, whatever the filter state |
| Blog.FilterPosts | app/blog/page.tsx:127-139 | `filteredPosts` is an order-preserving subsequence holding exactly the posts that pass all three tests |
| Blog.ShowingCountBound | app/blog/page.tsx:397 | there are 6 posts and the count shown never exceeds 6 |
| Blog.SearchSemantics | app/blog/page.tsx:129-132 | a post matches iff the lower-cased term occurs in the lower-cased title, excerpt or some tag; content, author and category never matter |
| Blog.EmptySearchMatchesAll | app/blog/page.tsx:129-132 | the empty term matches every post |
| Blog.CategoricalSemantics | app/blog/page.tsx:134-135 | `"All"` disables the category test, any other value requires equality; featured-only keeps exactly featured posts |
| Blog.DefaultFiltersKeepAll | app/blog/page.tsx:123-125 | the default state keeps every post |
| Blog.FeaturedOnlyIsFeaturedSection | app/blog/page.tsx:135 | with only "Featured Only" on, the grid lists exactly the featured section's posts |
| Blog.FilterPostsIdempotent | app/blog/page.tsx:137 | re-filtering a result with the same state changes nothing |
| Blog.DimensionsInAnyOrder | app/blog/page.tsx:137 | the three tests applied one at a time, in either order, give the conjunctive result |
| Blog.ClearFiltersIffNonDefault | app/blog/page.tsx:384 | "Clear Filters" is shown iff the term is non-empty, the category is not "All" or featured-only is on |
| Blog.FeaturedCardTags | app/blog/page.tsx:255-264 | a featured card shows the first `min(3, n)` tags, with `n - 3` hidden iff `n > 3` |
| Blog.GridCardTags | app/blog/page.tsx:437-446 | a grid card shows the first `min(2, n)` tags, with `n - 2` hidden iff `n > 2` |
| Blog.FeaturedCardMoreBadge | app/blog/page.tsx:260-264 | a featured card has an overflow badge iff its post has more than three tags, and it reads `+` then the count beyond three, then ` more` |
| Blog.GridCardMoreBadge | app/blog/page.tsx:442-446 | a grid card has an overflow badge iff its post has more than two tags, and it reads `+` then the count beyond two |
| Blog.StaticTagBadges | app/blog/page.tsx:30-118 | every post has four tags, so a featured card shows "+1 more" and a grid card "+2" |
| Blog.BlogPage.constructor | app/blog/page.tsx:123-125 | the page starts with term `""`, category "All", featured-only off |
| Blog.BlogPage.SetSearchTerm | app/blog/page.tsx:341 | only the search term changes |
| Blog.BlogPage.SelectCategory | app/blog/page.tsx:362 | only the category changes |
| Blog.BlogPage.ToggleFeaturedOnly | app/blog/page.tsx:379 | only the featured flag changes, and it flips |
| Blog.BlogPage.ResetFilters | app/blog/page.tsx:143-147 | the state is `""`, `"All"`, `false`, which keeps every list whole and hides "Clear Filters" |
| Members.FilterMembers | app/members/page.tsx:157-168 | `filteredMembers` is an order-preserving subsequence holding exactly the members that pass both tests |
| Members.SearchSemantics | app/members/page.tsx:160-163 | a member matches iff the lower-cased term occurs in the lower-cased name, username or role; description and skills never matter |
| Members.EmptySearchMatchesAll | app/members/page.tsx:160-163 | the empty term matches every member |
| Members.RoleSemantics | app/members/page.tsx:165 | role "All" passes everyone; any other role requires equality |
| Members.DataRolesAreTabs | lib/constants.ts:17 | every member's role is one of the role tabs other than "All" |
| Members.SearchAndRoleCommute | app/members/page.tsx:167 | the search and role filters can be applied in either order |
| Members.FilterMembersIdempotent | app/members/page.tsx:167 | re-filtering a result with the same state changes nothing |
| Members.DefaultFiltersKeepAll | app/members/page.tsx:152-153 | term `""` and role "All" keep every member |
| Members.DevMatchesDevelopers | app/members/page.tsx:162 | the term "dev" matches every Developer |
| Members.NoDevWithoutV | app/members/page.tsx:160-162 | lower-cased text without a `v` never includes "dev" |
| Members.NoDevInMember | app/members/page.tsx:160-162 | a member with no `v` in name, username or role does not match "dev" |
| Members.KeepsSecondAndFifth | app/members/page.tsx:158 | a filter that passes only the second and fifth of six elements returns exactly those two |
| Members.DevOnTeamFields | app/members/page.tsx:157-168 | six members with those searched fields filter under "dev" to the second and fifth |
| Members.DevMatchesOnTeamFields | app/members/page.tsx:157-163 | of six members with the team list's names, usernames and roles, only the two Developers match "dev" |
| Members.SearchedFields | app/members/page.tsx:16-149 | the static team list has six members, with these names, usernames, roles and ids |
| Members.DevExample | app/members/page.tsx:157-168 | on the static data, "dev" yields exactly the second and fifth members of the list, whose ids are 2 and 5 |
| Members.ResetListsAll | app/members/page.tsx:185-189 | after a reset all 6 members are listed |
| Members.FullPageErrorNeedsThrow | app/members/page.tsx:205 | with the list the filter actually returns, the full-page error never shows whatever the error and filters; it shows after a throw (no members, the error set) with term `""` and role "All" |
| Members.Grid | app/members/page.tsx:328-368 | the grid shows the spinner iff loading; otherwise the error iff one is set and the result is empty, the cards iff the result is non-empty, and "no results" otherwise |
| Members.FilterSummaryIffNonDefault | app/members/page.tsx:304 | the filter summary and "Clear filters" are hidden iff the term is `""` and the role is "All" |
| Members.MembersPage.constructor | app/members/page.tsx:152-155 | the page starts with term `""`, role "All", not loading and no error |
| Members.MembersPage.FilteredMembers | app/members/page.tsx:157-173 | a throwing filter gives `[]` and sets the error; otherwise the result is the filter and the error is kept |
| Members.MembersPage.HandleSearchChange | app/members/page.tsx:175-178 | the term is set and the error cleared; nothing else changes |
| Members.MembersPage.HandleRoleChange | app/members/page.tsx:180-183 | the role is set and the error cleared; nothing else changes |
| Members.MembersPage.HandleResetFilters | app/members/page.tsx:185-189 | term `""`, role "All", no error; every list is then kept whole and the summary hidden |
| Members.MembersPage.HandleRetry | app/members/page.tsx:191-194 | the error is cleared and loading starts |
| Members.MembersPage.RetryTimerFires | app/members/page.tsx:195-197 | loading ends and nothing else changes |
| Contact.FormData.With | app/contact/page.tsx:108 | `{ ...prev, [field]: value }` sets that field and keeps the other seven |
| Contact.IndexOf | app/contact/page.tsx:98 | the first position of a character, or the length when it is absent |
| Contact.IndexOfFirst | app/contact/page.tsx:98 | a position holding the character with none before it is the first position |
| Contact.AllEmailCharsAppend | app/contact/page.tsx:98 | a concatenation is a run of `[^\s@]` iff both parts are |
| Contact.ScanGivesPattern | app/contact/page.tsx:98 | what the scan accepts splits as `L@X.Y` with `L`, `X`, `Y` non-empty runs of `[^\s@]` |
| Contact.PatternGivesScan | app/contact/page.tsx:98 | every such split is accepted by the scan |
| Contact.EmailScanMatchesPattern | app/contact/page.tsx:98 | the scan accepts exactly the strings the regular expression `^[^\s@]+@[^\s@]+\.[^\s@]+$` matches |
| Contact.SplitAround | app/contact/page.tsx:98 | splitting a string at a position splits its multiset |
| Contact.ScanGivesShape | app/contact/page.tsx:98 | an accepted address has exactly one `@`, no white space, a non-empty local part, and a dot with text on both sides after the `@` |
| Contact.ShapeGivesScan | app/contact/page.tsx:98 | every string of that shape is accepted |
| Contact.EmailShapeCharacterization | app/contact/page.tsx:98 | the regular expression and the scan both accept exactly the strings of that shape |
| Contact.PaddedEmailFails | app/contact/page.tsx:98 | a valid address has no white space, so a space before or after it makes it invalid |
| Contact.ValidEmailNotBlank | app/contact/page.tsx:96-98 | a valid address is never blank |
| Contact.SiteAddressValid | app/contact/page.tsx:98 | "hello@teamxox.com" is valid |
| Contact.NoDotInvalid | app/contact/page.tsx:98 | an address without a dot is invalid |
| Contact.MissingDotInvalid | app/contact/page.tsx:98 | "hello@teamxox" is invalid |
| Contact.DoubledAtInvalid | app/contact/page.tsx:98 | "a@@b.c" is invalid |
| Contact.LeadingWhitespaceInvalid | app/contact/page.tsx:98 | an address starting with white space is invalid, because the test sees the untrimmed value |
| Contact.LeadingSpaceInvalid | app/contact/page.tsx:98 | " hello@teamxox.com" is invalid |
| Contact.FormErrorsPerField | app/contact/page.tsx:92-104 | a field has an entry in the error map iff its own rule gives an error, and the entry is that error |
| Contact.RequiredTextFields | app/contact/page.tsx:95-101 | name and message have an error iff all white space, and it is "Name is required" / "Message is required" |
| Contact.EmailFieldRule | app/contact/page.tsx:96-100 | the e-mail field has at most one error: "Email is required" when all white space, otherwise "Please enter a valid email address" iff the untrimmed value fails the pattern |
| Contact.PaddedEmailError | app/contact/page.tsx:96-100 | a valid address with a leading space gets "Please enter a valid email address" |
| Contact.OptionalFieldsNeverErr | app/contact/page.tsx:92-104 | company, phone, project type, budget and timeline never get an error, and changing them never changes the map |
| Contact.TwoErrorsExample | app/contact/page.tsx:92-104 | an empty name, an empty message and a valid address give exactly two errors |
| Contact.EmptyFormErrors | app/contact/page.tsx:130-139 | the cleared form fails on name, e-mail and message |
| Contact.ContactPage.constructor | app/contact/page.tsx:78-90 | the form starts with all eight fields empty, not submitting, status "idle" and no errors |
| Contact.ContactPage.ValidateForm | app/contact/page.tsx:92-105 | the stored map is the rule-by-rule error map, the result is true iff it is empty, and nothing else changes |
| Contact.ContactPage.HandleInputChange | app/contact/page.tsx:107-112 | one field is set and its error removed; the other fields and errors are kept |
| Contact.ContactPage.HandleSubmit | app/contact/page.tsx:114-120 | an invalid form only updates the errors; a valid one starts submitting with status "idle" |
| Contact.ContactPage.CompleteSubmit | app/contact/page.tsx:122-145 | success clears all eight fields and sets "success"; a thrown error sets "error" and keeps the form; either way submitting ends |
| MemberCard.ShortDescription | components/member-card.tsx:18-22 | a short description is kept; a long one becomes the trim of its first 120 characters followed by "...", a piece of the description with no white space at either end, at most 123 characters in all |
| MemberCard.ShortDescriptionBound | components/member-card.tsx:19-21 | a long description's short form is at most two characters longer than it |
| MemberCard.CutWithoutEdgeSpace | components/member-card.tsx:21 | when the cut starts and ends with non-space characters, the short form is exactly the first 120 characters and "..." |
| MemberCard.TrimNoEdgeSpace | components/member-card.tsx:21 | trimming a string with non-space ends leaves it unchanged |
| MemberCard.BlankCutIsEllipsis | components/member-card.tsx:21 | a long description whose first 120 characters are white space shows only "..." |
| MemberCard.Card.constructor | components/member-card.tsx:16-24 | a card starts collapsed and with no image error |
| MemberCard.Card.DisplayedText | components/member-card.tsx:66 | expanded, or not long: the full description; collapsed: the short description, which for a long one ends in "..." and has at most 123 characters |
| MemberCard.Card.ToggleLabel | components/member-card.tsx:77-85 | "Read more" iff collapsed, "Show less" iff expanded |
| MemberCard.Card.AvatarSource | components/member-card.tsx:43 | the avatar until the image fails, the placeholder after |
| MemberCard.Card.ToggleExpanded | components/member-card.tsx:68-72 | one click flips `expanded` and nothing else; a short description reads the same either way |
| MemberCard.Card.OnImageError | components/member-card.tsx:47 | the image error is recorded and the placeholder shown |
| MemberCard.Card.HandleViewProfile | components/member-card.tsx:26-30 | the callback receives this card's member iff one was passed |
| TeamMember.ShortDescription | components/team-member.tsx:25-26 | a short description is kept; a long one becomes exactly its first 150 characters and "...", 153 characters |
| TeamMember.SameCutSameShort | components/team-member.tsx:26 | two long descriptions get the same short form iff they agree on the first 150 characters |
| TeamMember.LogoSource | components/team-member.tsx:34 | a non-empty logo is used, an empty one falls back to the placeholder, so the source is never empty |
| TeamMember.Card.constructor | components/team-member.tsx:22 | a card starts collapsed |
| TeamMember.Card.DisplayedText | components/team-member.tsx:55 | expanded, or not long: the full description; collapsed: the short description, which for a long one is its first 150 characters followed by "..." |
| TeamMember.Card.ToggleLabel | components/team-member.tsx:64-71 | "Load more" iff collapsed, "Show less" iff expanded |
| TeamMember.Card.ToggleExpanded | components/team-member.tsx:57-62 | one click flips `expanded`; a short description reads the same either way |
| SkillBar.LevelBands | components/skill-bar.tsx:37-38 | Expert iff at least 90, Advanced iff 80 to 89, Intermediate iff 60 to 79, Beginner iff below 60 |
| SkillBar.LevelIsHighestReached | components/skill-bar.tsx:37-38 | the level is the highest one whose threshold the percentage reaches |
| SkillBar.Boundaries | components/skill-bar.tsx:37-38 | 90 is Expert and 89 Advanced; 80 is Advanced and 79 Intermediate; 60 is Intermediate and 59 Beginner |
| SkillBar.LevelMonotone | components/skill-bar.tsx:37-38 | a higher percentage never gets a lower level |
| SkillBar.GradientFollowsLevel | components/skill-bar.tsx:31-35 | the three colour bands coincide with Expert, Advanced, and the two lower levels |
| SkillBar.LevelLabelInjective | components/skill-bar.tsx:37-38 | the four level words are distinct |
| SkillBar.AriaLabelNamesLevel | components/skill-bar.tsx:37-48 | for one skill name, two percentages give the same label exactly when they fall in the same level |
| SkillBar.Bar.constructor | components/skill-bar.tsx:15-20 | a bar starts unseen with width 0 |
| SkillBar.Bar.EnterView | components/skill-bar.tsx:15-18 | the bar is seen; the width is not yet changed |
| SkillBar.Bar.TimerFires | components/skill-bar.tsx:22-29 | the width becomes the percentage |
| SkillBar.Bar.WidthStyle | components/skill-bar.tsx:20-61 | the width is 0 until the bar is seen, and only ever 0 or the percentage |
| StatCard.Digits | components/stat-card.tsx:18 | the digit string holds only digits, in the order they appear |
| StatCard.Suffix | components/stat-card.tsx:19 | the suffix holds no digit, and keeps the order of the rest |
| StatCard.NumberValue | components/stat-card.tsx:18 | the value is missing (`NaN`) exactly when the string has no digit; otherwise the digits, in order, are zeros followed by the decimal text of the value |
| StatCard.DigitsEmptyIffNoDigit | components/stat-card.tsx:18 | removing the non-digits leaves nothing exactly when the string has no digit |
| Decimal.ZeroPadded | components/stat-card.tsx:18 | every non-empty digit string is zeros followed by the decimal text of its value, as `parseInt` reads it |
| Decimal.ZeroPaddedStep | components/stat-card.tsx:18 | appending a digit to a zero-padded number gives a zero-padded text of ten times the number plus the digit |
| Decimal.ZeroPaddedUnique | components/stat-card.tsx:18 | a zero-padded decimal text has one value and one padding |
| StatCard.SplitIsPartition | components/stat-card.tsx:18-19 | every character goes to exactly one part: lengths and multisets add up |
| StatCard.SplitNumberAndSuffix | components/stat-card.tsx:18-19 | a number's text followed by a digit-free suffix splits back into the number and the suffix |
| StatCard.CountText | components/stat-card.tsx:57 | a whole count's text reads back as the count; `NaN` is written "NaN" |
| StatCard.DisplayText | components/stat-card.tsx:57 | "0" when not in view; in view, the count's text followed by the suffix |
| StatCard.SettledCount | components/stat-card.tsx:31-34 | the last frame stores the stat's value, a number exactly when the string has a digit, and `NaN` otherwise |
| StatCard.SettledDisplayIsStat | components/stat-card.tsx:18-57 | a stat written as a number and digit-free suffix, such as "50+", reads as written once the animation ends |
| Newsletter.Signup.constructor | components/newsletter-signup.tsx:13-15 | the form starts with an empty field, not submitting and not subscribed |
| Newsletter.Signup.ButtonLabel | components/newsletter-signup.tsx:64-67 | "..." iff the button is disabled, "Subscribe" otherwise |
| Newsletter.Signup.SetEmail | components/newsletter-signup.tsx:58 | the field takes the typed value |
| Newsletter.Signup.Submit | components/newsletter-signup.tsx:17-21 | an empty field changes nothing; otherwise submitting starts and the button is disabled |
| Newsletter.Signup.CompleteSubmit | components/newsletter-signup.tsx:24-28 | submitting ends, the visitor is subscribed, the field is cleared and the form hidden |
| Newsletter.Signup.ResetTimerFires | components/newsletter-signup.tsx:31 | subscribed goes back to false and the form is shown again |
| Newsletter.SubscribeRound | components/newsletter-signup.tsx:17-32 | a full type, submit, wait and reset round ends with an empty field and the form shown |

## Left out

- JSX markup, Tailwind class strings, framer-motion variants and icons: presentation only. Class strings are kept only where a rule picks one, as in `getStatusColor` and `getGradientClasses`.
- Images, dates, reading times, links and social URLs of the data records: rendered but never read by any rule.
- Date and locale formatting (`toLocaleDateString`, `getFullYear`): foreign library calls.
- Case mapping beyond `A`-`Z`: `toLowerCase` is modelled on ASCII letters only.
- JavaScript strings are UTF-16 code-unit sequences; here a string is a sequence of characters, so `length` and `substring` count characters.
- The stat card's `requestAnimationFrame` loop and its floating-point `easeOutQuart` easing: frame scheduling and float numerics. Only the settled count, where the easing is exactly 1, is modelled.
- `parseInt` precision: the digit string is read as an unbounded whole number, not a double.
- Timers and awaits: each becomes an explicit transition. Cancelling a timer on unmount is not modelled.
- Members.MembersPage.FilteredMembers: the filter cannot throw in the model, so a `filterThrows` parameter stands for the exception the catch branch handles.
- `console.log` and `console.error`, `window.location.reload`, and the browser's own checks from the `required` and `type="email"` attributes: external.
- The modals, the error boundary, the header, the footer, and the static home, about and services pages.
- members/[id] and blog/[id] detail pages: not part of this model.
- Skill percentages are whole numbers; the source's `number` could hold a fraction.
- Contact errors: the source clears an error by writing `undefined`; here the key is removed. Every read of the map only tests truthiness, so the two cannot be told apart.
- Members.DevExample: states the result by position in the list and by id (the second and fifth members, ids 2 and 5) rather than as whole member records.
- Members.MembersPage.HandleResetFilters, Projects.ProjectsPage.ResetFilters, Blog.BlogPage.ResetFilters: state that the restored filters keep every list whole. That this means all 6 records of the static data is `Members.ResetListsAll` and `DefaultFiltersKeepAll`.
- Newsletter: a field holding only spaces is submitted, since the source tests `!email` and does not trim.
