# Portfolio site: contact form, blog lookup and tech-stack chips

This project models the parts of a React portfolio site that hold logic. Everything else is markup and animation.

- **Contact form** (`src/pages/Contact.tsx`). Four text fields feed a validator. The validator gives a failing field one fixed message, and the component moves through a small state machine: form values, errors, "submitting" and a status of none, "success" or "error". The model is the class `ContactForm.Form`:
  - `Validate` is `validateForm`.
  - `Submit` is `handleSubmit` up to the awaited send.
  - `Settle` is the send settling, with the outcome given by the caller.
  - `ResetStatus` is the 5-second `setTimeout` firing, as an explicit event.
  - `EditField` is an input's `onChange`.

  `ValidationErrors` is the value `validateForm` computes. The lemmas beside it state each rule in its own terms. The email regular expression is stated twice: once as the regular expression reads (`MatchesEmailRegex`), and once as the check written out (`IsEmailShape`). The two are proved equivalent.
- **Blog** (`src/data/blog.ts`, `src/pages/Blog.tsx`):
  - the three posts in declaration order;
  - the first-match slug lookup;
  - the "/404" redirect on a miss;
  - the `/blog/:slug` route with the links that lead to it;
  - the code-fence language taken from a class name by `/language-(\w+)/`;
  - the removal of one trailing newline before highlighting.
- **Tech-stack chips** (`src/components/Experience.tsx`, `src/components/ProjectModal.tsx`). Both components parse a `"Label: a, b, c"` string with `split(":")[1].split(",").map(t => t.trim())`. A string without ':' makes the chain throw, and the model returns that as a `Failure`.

Modules:
- `Wrappers`: `Option`, `Result`.
- `Strings`: ECMAScript whitespace, `trim`, and `split` on one character. Two helpers state `split`: `IndexOf`, where it cuts, and `Join`, which it inverts. The site calls neither.
- `ContactForm`.
- `TechStack`.
- `Experience`.
- `ProjectModal`.
- `BlogData`.
- `BlogPage`.

## Model

| member | source | states |
|---|---|---|
| `Strings.IsWhitespace` | src/pages/Contact.tsx:34-40 | no contract: the ECMAScript WhiteSpace and LineTerminator code points, which `trim()` removes and `\s` matches; `Strings.TrimSpec` and `ContactForm.EmailShapeIffRegex` state the results built on it |
| `Strings.LeadingWhitespace` | src/pages/Contact.tsx:34 | the count is the length of the longest all-whitespace prefix: every character before it is whitespace and the one at it is not |
| `Strings.TrailingWhitespace` | src/pages/Contact.tsx:34 | the same for the longest all-whitespace suffix |
| `Strings.Trim` | src/pages/Contact.tsx:34 | `trim()` gives a string with no whitespace at either end, no longer than its input |
| `Strings.TrimSpec` | src/pages/Contact.tsx:34 | the trimmed string sits in the input right after the leading whitespace, and everything outside it is whitespace |
| `Strings.TrimEmptyIffAllWhitespace` | src/pages/Contact.tsx:34 | `!s.trim()` holds exactly when every character of `s` is whitespace |
| `Strings.IndexOf` | src/components/Experience.tsx:55 | the index is the first occurrence: it holds the character and no earlier position does |
| `Strings.IndexOfAfter` | src/components/Experience.tsx:55 | in `a + [c] + b` with no `c` in `a`, the first `c` stands at `|a|` |
| `Strings.TwoOccurrences` | src/pages/Contact.tsx:40 | two positions holding `c` give a count of at least two |
| `Strings.JoinCons` | src/components/Experience.tsx:55 | joining `[p] + rest` is `p`, the separator, then the join of `rest` |
| `Strings.Split` | src/components/Experience.tsx:55 | `split` on one character: one piece more than there are separators, no piece holds the separator, the pieces re-joined give the input, and the first piece runs up to the first separator |
| `Strings.SplitCons` | src/components/Experience.tsx:55 | a separator-free prefix followed by the separator splits off as the first piece |
| `Strings.SplitJoin` | src/components/Experience.tsx:55 | splitting the join of separator-free pieces gives back exactly those pieces |
| `Strings.JoinAvoids` | src/components/Experience.tsx:55 | a character that is in no piece and is not the separator is not in the join |
| `Strings.TrimAfterSpace` | src/components/Experience.tsx:61 | `" " + w` trims to `w` when `w` is trimmed, a lone space trimming to nothing |
| `TechStack.Segment` | src/components/Experience.tsx:55 | `split(":")[1]` exists exactly when the string holds a ':' |
| `TechStack.SegmentSpec` | src/components/Experience.tsx:55 | the segment is the ':'-free text right after the first ':', ending at the second ':' or at the end |
| `TechStack.TrimAll` | src/components/Experience.tsx:61 | `map(t => t.trim())`: one element per piece, each trimmed and no longer than its piece |
| `TechStack.Chips` | src/components/Experience.tsx:55-61 | the parse fails exactly when the string has no ':' |
| `TechStack.ChipsSpec` | src/components/Experience.tsx:55-61 | the chips number one more than the segment's commas (empty pieces kept), and each chip is trimmed and is the trim of its piece, in source order |
| `TechStack.SplitHead` | src/components/Experience.tsx:55 | the first piece of `a + tail` is `a` when `a` is separator-free and `tail` is empty or starts with the separator |
| `TechStack.SegmentOf` | src/components/Experience.tsx:55 | for `heading:segment` followed by nothing or by another ':', the segment is exactly `segment` |
| `TechStack.IgnoresAfterSecondSeparator` | src/components/Experience.tsx:55 | whatever follows a second ':' does not change the chips |
| `TechStack.ChipsOfJoin` | src/components/Experience.tsx:55-61 | `heading:` followed by pieces joined with ',' parses to the trims of those pieces |
| `TechStack.ChipsOfList` | src/components/Experience.tsx:55-61 | a stack written `Label: n1, n2, ...` with trimmed, separator-free names parses to exactly those names, in order |
| `Experience.CardOf` | src/components/Experience.tsx:40-63 | a card exists exactly when its stack parses; it carries the title, company, duration, one bullet per description line and the parsed chips |
| `Experience.MapAll` | src/components/Experience.tsx:31 | `xs.map(f)` with a throwing `f`: succeeds exactly when every element does, and then gives each element's result in order |
| `Experience.MapAllFirstFailure` | src/components/Experience.tsx:31 | a failing map fails with the error of the first failing element, every element before it succeeding |
| `Experience.Experiences` | src/components/Experience.tsx:3-26 | no contract: the two entries as declared; `Experience.ExperiencesRender` and the two chip lemmas state what they render |
| `Experience.RenderCards` | src/components/Experience.tsx:31 | no contract; `Experience.MapAll`, `Experience.MapAllFirstFailure` and `Experience.ExperiencesRender` state the map |
| `Experience.SoftwareEngineerChips` | src/components/Experience.tsx:13 | the first stack parses to nine chips, "React" first and "MongoDB" last |
| `Experience.FrontendDeveloperChips` | src/components/Experience.tsx:24 | the second stack parses to its seven chips, "Vue.js" to "Docker" |
| `Experience.ExperiencesRender` | src/components/Experience.tsx:3-67 | with the site's data nothing throws: two cards in order, each with its stack's chips |
| `ProjectModal.RenderModal` | src/components/ProjectModal.tsx:4-50 | no project renders nothing; otherwise the dialog exists exactly when the stack has a ':', showing the title, the duration and the parsed chips |
| `ProjectModal.ParagraphsInOrder` | src/components/ProjectModal.tsx:37-41 | one paragraph per description element, same count, same order |
| `ProjectModal.ModalChips` | src/components/ProjectModal.tsx:45-48 | the dialog's chips number the segment's commas plus one, and each is trimmed |
| `ContactForm.Problem.Text` | src/pages/Contact.tsx:35-51 | no contract: the six display strings as written; `ContactForm.TextsDistinct` states what is promised of them |
| `ContactForm.TextsDistinct` | src/pages/Contact.tsx:35-51 | different rules never show the same message |
| `ContactForm.IsBlank` | src/pages/Contact.tsx:34 | no contract; `ContactForm.BlankIffTrimEmpty` states that it is `!s.trim()` |
| `ContactForm.MatchesEmailRegex` | src/pages/Contact.tsx:40 | no contract: the regular expression read as it is; `ContactForm.EmailShapeIffRegex` ties it to the written-out check |
| `ContactForm.IsEmailShape` | src/pages/Contact.tsx:40 | no contract; `ContactForm.EmailShapeIffRegex` states that it accepts exactly what the regular expression matches |
| `ContactForm.FieldError` | src/pages/Contact.tsx:34-52 | no contract; `ContactForm.NameAndSubjectRequired`, `ContactForm.EmailRules` and `ContactForm.MessageRules` state each field's rule |
| `ContactForm.ValidationErrors` | src/pages/Contact.tsx:31-53 | no contract; `ContactForm.NoErrorsIffAcceptable`, the three rule lemmas and `ContactForm.ErrorsLocal` state what it computes |
| `ContactForm.FormData.With` | src/pages/Contact.tsx:117 | `{ ...formData, [f]: v }`: the field holds `v` and the other three keep their values |
| `ContactForm.BlankIffTrimEmpty` | src/pages/Contact.tsx:34 | the blank test holds exactly when `s.trim()` is empty, and exactly when `s` is only whitespace |
| `ContactForm.EmailShapeIffRegex` | src/pages/Contact.tsx:40 | the written-out email check accepts exactly the strings `/^[^\s@]+@[^\s@]+\.[^\s@]+$/` matches |
| `ContactForm.EmailShapeFromRegex` | src/pages/Contact.tsx:40 | a string that splits as plain run, '@', plain run, '.', plain run passes the written-out check |
| `ContactForm.RegexFromEmailShape` | src/pages/Contact.tsx:40 | a string that passes the written-out check splits that way |
| `ContactForm.OnlyAt` | src/pages/Contact.tsx:40 | with exactly one '@', no other position holds '@' |
| `ContactForm.CountAround` | src/pages/Contact.tsx:40 | the '@' count of a string is the sum over its five parts around two positions |
| `ContactForm.LeadingSpaceEmailRejected` | src/pages/Contact.tsx:38-42 | `" a@b.co"` is not blank, yet it fails the check, because the email is checked untrimmed |
| `ContactForm.SimpleEmailAccepted` | src/pages/Contact.tsx:40 | `"a@b.co"` passes the check |
| `ContactForm.FormErrors.Keys` | src/pages/Contact.tsx:55 | `Object.keys(errors)` lists exactly the fields with a message, and it is empty exactly when no field has one |
| `ContactForm.NoErrorsIffAcceptable` | src/pages/Contact.tsx:31-56 | validation leaves no message exactly when the name and subject are not all whitespace, the email matches the regular expression and the trimmed message has at least 10 characters |
| `ContactForm.NameAndSubjectRequired` | src/pages/Contact.tsx:34-46 | the name gets "Name is required" exactly when it is all whitespace, and no message otherwise; likewise the subject with "Subject is required" |
| `ContactForm.EmailRules` | src/pages/Contact.tsx:38-42 | "Email is required" exactly when the email is all whitespace; "Please enter a valid email address" exactly when it is not and the untrimmed string fails the regular expression; no message exactly when it matches |
| `ContactForm.MessageRules` | src/pages/Contact.tsx:48-52 | "Message is required" exactly when the message is all whitespace; "Message must be at least 10 characters long" exactly when it is not and its trimmed length is below 10; no message exactly when the trimmed length is 10 or more |
| `ContactForm.ErrorsLocal` | src/pages/Contact.tsx:31-56 | editing one field cannot change another field's message |
| `ContactForm.Form.constructor` | src/pages/Contact.tsx:20-29 | the initial state: empty fields, no errors, not submitting, no status |
| `ContactForm.Form.Validate` | src/pages/Contact.tsx:31-56 | the stored errors become the validator's result for the current fields, replacing any earlier ones; the result is true exactly when none are stored; nothing else changes |
| `ContactForm.Form.Submit` | src/pages/Contact.tsx:58-65 | while submitting, the disabled button allows no submit and nothing changes; otherwise the form is validated, a failure changes only the errors, and a pass starts the send |
| `ContactForm.Form.Settle` | src/pages/Contact.tsx:66-78 | a resolved send sets "success" and clears all four fields; a rejected one sets "error" and keeps them; either way the send ends and one status reset is scheduled |
| `ContactForm.Form.ResetStatus` | src/pages/Contact.tsx:77 | a scheduled reset hides the status and changes nothing else |
| `ContactForm.Form.EditField` | src/pages/Contact.tsx:117-174 | only the edited field takes the new value |
| `BlogData.BlogPosts` | src/data/blog.ts:11-685 | no contract: the three posts as declared; `BlogData.SlugsDistinct`, `BlogData.TagsNonEmpty`, `BlogData.SlugsUrlSafe` and `BlogData.DeclarationOrder` state their properties |
| `BlogData.SlugsDistinct` | src/data/blog.ts:18-331 | no two posts share a slug |
| `BlogData.TagsNonEmpty` | src/data/blog.ts:17-330 | every post has at least one tag |
| `BlogData.SlugsUrlSafe` | src/data/blog.ts:18-331 | every slug is a non-empty run of lower-case ASCII letters, digits and '-' |
| `BlogData.DeclarationOrder` | src/data/blog.ts:13-328 | the collection is in declaration order (March 15, 25, then 20), not date order |
| `BlogPage.Find` | src/pages/Blog.tsx:13 | no contract; `BlogPage.FoundHasSlug`, `BlogPage.EarliestWins` and `BlogPage.MissFindsNothing` state the first-match lookup |
| `BlogPage.BlogView` | src/pages/Blog.tsx:10-21 | no contract; `BlogPage.BlogViewCases` states both outcomes |
| `BlogPage.FindIndex` | src/pages/Blog.tsx:13 | the index found is the first whose slug equals the parameter exactly; none is found only when no post matches; an absent parameter equals no slug |
| `BlogPage.FoundHasSlug` | src/pages/Blog.tsx:13 | a found post is one of the posts, and its slug is the parameter, case and all |
| `BlogPage.EarliestWins` | src/pages/Blog.tsx:13 | with several posts of the same slug, the earliest is found |
| `BlogPage.MissFindsNothing` | src/pages/Blog.tsx:11-21 | an absent parameter, or one no post has, finds nothing |
| `BlogPage.ArticleOf` | src/pages/Blog.tsx:35-84 | no contract; `BlogPage.BlogViewCases` (through `ShowsPost`) states what the article shows |
| `BlogPage.BlogViewCases` | src/pages/Blog.tsx:13-58 | an article is shown exactly when some post has the slug, and then no navigation happens and the article shows that post's date, its tags in stored order, its title, its image with the title as alt text, and its content; otherwise the page navigates to "/404" and shows nothing |
| `BlogPage.MatchBlogRoute` | src/App.tsx:49 | a path the `/blog/:slug` route accepts is "/blog/", in any letter case, followed by one non-empty segment without '/', and that segment is the parameter with its case kept |
| `BlogPage.RouteIgnoresCase` | src/App.tsx:49 | "/Blog/x" reaches the article page with the parameter "x", while "/blogs/x" does not match the route |
| `BlogPage.LinkTo` | src/pages/Blogs.tsx:25 | no contract; `BlogPage.MatchLink` and `BlogPage.LinkRoundTrip` state that the link leads back to its post |
| `BlogPage.MatchLink` | src/components/BlogCard.tsx:15 | after "/blog/" in any letter case, the route gives back a one-segment slug unchanged, so the link `/blog/${slug}` leads to its slug |
| `BlogPage.SlugHasNoSlash` | src/data/blog.ts:18 | a URL-safe slug is non-empty and has no '/' |
| `BlogPage.LinkRoundTrip` | src/pages/Blogs.tsx:25 | the link of every post of the site, routed and looked up, opens that post's article |
| `BlogPage.NodeArticleFound` | src/data/blog.ts:13-18 | looking up "building-enterprise-nodejs-apps" finds the post titled "Building Enterprise-grade Node.js Applications" |
| `BlogPage.IsWordChar` | src/pages/Blog.tsx:65 | no contract: the ASCII `\w` class (letters, digits, '_'), as JavaScript reads it without the u flag; `BlogPage.LanguageSpec` states the run built on it |
| `BlogPage.WordRun` | src/pages/Blog.tsx:65 | `\w+` taken greedily: every character in the run is a word character and the one after it is not |
| `BlogPage.FirstMatch` | src/pages/Blog.tsx:65 | the leftmost position where `language-` and a word character occur; none is found only when there is none |
| `BlogPage.Language` | src/pages/Blog.tsx:65 | no contract; `BlogPage.LanguageFoundIff` and `BlogPage.LanguageSpec` state when a language is found and what it is |
| `BlogPage.NoClassNoLanguage` | src/pages/Blog.tsx:65 | an absent or empty class name never gives a language |
| `BlogPage.LanguageFoundIff` | src/pages/Blog.tsx:65 | a language is found exactly when "language-" followed by a word character occurs somewhere in the class name |
| `BlogPage.LanguageSpec` | src/pages/Blog.tsx:65 | the language found is the non-empty, maximal run of word characters after the leftmost such occurrence, as it stands in the class name |
| `BlogPage.StripTrailingNewline` | src/pages/Blog.tsx:73 | the result is a prefix of the input, at most one character shorter |
| `BlogPage.StripRemovesOne` | src/pages/Blog.tsx:73 | exactly one final newline is removed, whatever precedes it |
| `BlogPage.StripKeepsOthers` | src/pages/Blog.tsx:73 | a string not ending in a newline is left as it is, its interior newlines included |
| `BlogPage.RenderCode` | src/pages/Blog.tsx:64-79 | a block is highlighted exactly when it is not inline and a language matched, with that language and the text minus one trailing newline; otherwise the class name and children pass through unchanged |

## Left out

- Animation, layout and presentation: framer-motion, the Tailwind classes, icons. These hold no logic.
- Real time. The 1500 ms simulated send and the 5000 ms timer are discrete events (`Settle`, `ResetStatus`), not durations. Interleavings of several pending timers are not ordered: any pending reset may fire and hide whatever status is current.
- The send itself. The component's promise always resolves. `Settle` takes a `Resolved` or `Rejected` outcome as a parameter, so that the `catch` branch is modelled as well.
- `ContactForm.Form.Submit`: it models `handleSubmit` up to the awaited send, and `Settle` models the rest. A click while submitting is excluded by `disabled={isSubmitting}`; in the model that click is a `Submit` that does nothing. `e.preventDefault()` is a browser effect and is not modelled.
- The messages are the `Problem` constructors. `Problem.Text` gives each one's exact string.
- ECMAScript's whitespace table is written out as a fixed set of code points. String length counts Dafny `char`s, not UTF-16 code units, so the 10-character minimum agrees with the browser only for text within the Basic Multilingual Plane.
- The regular expressions are modelled by what they match, not by a regular-expression engine.
- ReactMarkdown and the Prism highlighter are foreign code. For a code element the model keeps the decision and the arguments passed (`RenderCode`), not the rendering. `children` is treated as one text node. When ReactMarkdown passes several nodes, `String(children)` joins them with commas, and the model does not capture that.
- react-router: route matching beyond `/blog/:slug` is not modelled. The route's prefix is matched ignoring ASCII letter case, as the router does by default; the optional trailing '/' the router also accepts is not modelled. Percent-decoding of the parameter is not modelled either; the site's slugs need no decoding.
- The markdown body of each post is kept only as its opening heading. The body is several hundred lines of prose with no bearing on the lookup. Long literals are written as concatenated pieces of the same text.
- src/pages/BlogPost.tsx is not part of this model. No route uses it, and it reads fields that `BlogPost` does not have.
- ProjectModal: only `title`, `duration`, `description` and `techStack` are modelled. `description` is a sequence, as the component's `.map` expects; src/data/projects.ts is not part of this model. The `onClose` callback is not modelled.
- `Strings.Trim` and `TechStack.Chips` keep their own contracts short. What their results are is stated by the lemmas `Strings.TrimSpec` and `TechStack.ChipsSpec`, which callers invoke.
