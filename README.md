# Freelancer marketplace: transaction lifecycle

This project models the core of a client-side freelance marketplace, written as one React
component in `app/page.tsx`. It covers the path a piece of work takes:
- a user signs up as a Client or a Freelancer;
- a Client posts a project;
- Freelancers bid on it, and the Client hires one of them;
- the Client marks the work complete and leaves a star rating;
- the Freelancer's displayed rating is recomputed as the mean of every rating they have received.

The component keeps four lists in state: users, projects, bids and reviews. Its handlers
prepend a record or rewrite the records that carry one id. Every rule about who may do
what, and when, lives in the interface: a button or form is shown only under a condition,
and a submit handler returns early when a field is missing.

The model has four modules:

- `Records` holds the four record types and the project status. It also holds the
  `find`-style lookups and the id-wise rewrites that `handleHire`,
  `handleCompleteProject` and `handleAddReview` perform with `map`. Lemmas state what
  each rewrite changes and what it leaves alone.
- `Text` holds the JavaScript string operations the core uses: `split(',')`, `trim()`,
  `toLowerCase()` and `includes(...)`. It also holds the skills parser
  `skills.split(',').map(s => s.trim())`. The lemmas cover the split/join round trip,
  trim returning the middle slice, idempotence, and `includes` as "occurs at some index".
- `Selectors` holds the derived lists:
  - the title search on the project list;
  - the dashboard ("my projects");
  - a project's bids, and whether a freelancer has already bid;
  - a freelancer's reviews and their mean.

  The lemmas give each list's membership both ways. They also show that the mean lies in
  [1, 5] and does not depend on the order of the reviews.
- `Market` holds the `App` class with the component's four lists as fields.
  - The six handlers are methods that check nothing, exactly as written: `HandleSignUp`,
    `AddBid`, `AddProject`, `HandleHire`, `HandleCompleteProject` and `HandleAddReview`.
  - Each condition under which the interface offers an action is a check function
    returning `Pass` or `Fail(denial)`: `SignUpCheck`, `PostCheck`, `BidCheck`,
    `HireCheck`, `CompleteCheck` and `ReviewCheck`. Each one tests its conditions in the
    order the interface meets them. On a project page the project and its client are
    looked up before the current user is; on the dashboard the current user comes first.
  - A gated method per action runs the check and, on `Pass`, the handler:
    `SignUp`, `PostProject`, `SubmitBid`, `Hire`, `Complete` and `SubmitReview`.
  - Gated methods keep the invariant `Consistent`. Ids are unique; every reference
    resolves to a user of the right role; a project is Open exactly when nobody is hired,
    and a hired freelancer has a bid on it; there is at most one bid per project and
    freelancer; every review is a 1..5 rating of the hired freelancer of a Completed
    project; and every freelancer's rating is the mean of their reviews (0 before any).
  - The lifecycle order `Advances` holds across every step: Open, then In Progress,
    then Completed, and a hired freelancer is never replaced.
  - Five `Scenario*` methods make up a worked example: Ada and Lin sign up, Ada posts,
    Lin bids and is hired, Ada completes the project and gives four stars, and Lin's
    rating becomes 4.0.

Ids come from `Date.now()`. The model takes them as parameters, with a precondition that
they are not in use. The current user becomes an `actor: Option<Id>` parameter of each
gated action.

## Model

| member | source | states |
|---|---|---|
| Records.FindUserOf | app/page.tsx:288-289 | with unique ids, looking up the id of a listed user finds exactly that user (`find` returns the first match) |
| Records.FindProjectOf | app/page.tsx:288 | with unique ids, looking up the id of a listed project finds exactly that project |
| Records.MarkHiredAt | app/page.tsx:546-549 | hiring keeps length and order, sets status In Progress and the hired freelancer on exactly the records with that id, and leaves every other record equal |
| Records.MarkCompletedAt | app/page.tsx:554-557 | completion keeps length and order and sets status Completed on exactly the records with that id, leaving their hired freelancer and all other records as they were |
| Records.MarkRatedAt | app/page.tsx:565-567 | re-rating keeps length and order and sets the rating of exactly the users with that id, every other field and user unchanged |
| Records.FindAfterMarkHired | app/page.tsx:546-549 | a lookup after hiring finds the hired version of the hired project and the unchanged record of any other |
| Records.FindAfterMarkCompleted | app/page.tsx:554-557 | a lookup after completion finds the completed version of that project and the unchanged record of any other |
| Records.FindAfterMarkRated | app/page.tsx:565-567 | a lookup after re-rating finds the re-rated user for that id and the unchanged user for any other id |
| Records.MarkHiredKeepsIds | app/page.tsx:546-549 | hiring keeps every record's id in place, so ids stay unique |
| Records.MarkCompletedKeepsIds | app/page.tsx:554-557 | completion keeps every record's id in place |
| Records.MarkRatedKeepsIds | app/page.tsx:565-567 | re-rating keeps every user's id in place |
| Records.FindUserPrepend | app/page.tsx:526-527 | after prepending a user, its id finds the new record (the newest wins) and every other id finds what it found before |
| Records.FindProjectPrepend | app/page.tsx:542-543 | after prepending a project, its id finds the new record and every other id finds what it found before |
| Text.Split | app/page.tsx:467 | `split(',')` yields one more piece than there are separators, and no piece holds the separator |
| Text.JoinSplit | app/page.tsx:467 | joining the pieces of a split with the separator gives back the input |
| Text.SplitJoin | app/page.tsx:467 | splitting the join of separator-free pieces gives back the pieces |
| Text.TrimStart | app/page.tsx:467 | removes exactly the leading white space: the result is a suffix, what went is white space, and the result starts with a non-space |
| Text.TrimEnd | app/page.tsx:467 | removes exactly the trailing white space: the result is a prefix, what went is white space, and the result ends with a non-space |
| Text.TrimIsMiddle | app/page.tsx:467 | `trim()` returns a slice `s[i..j]` of its input with only white space outside it and no white space at either end |
| Text.TrimIdempotent | app/page.tsx:467 | trimming twice is trimming once |
| Text.TrimKeepsOut | app/page.tsx:467 | trimming introduces no character that was not there |
| Text.ParseSkillsShape | app/page.tsx:467 | the skills field gives one tag per comma-separated piece (commas + 1, never none); tag k is piece k with only the white space at its ends cut away, so it holds no comma and is already trimmed |
| Text.ToLowerIdempotent | app/page.tsx:255 | a lower-cased string has no upper-case ASCII letter and lowering it again changes nothing |
| Text.ContainsIff | app/page.tsx:255 | `includes` holds exactly when the needle occurs at some index of the hay |
| Selectors.SearchSpec | app/page.tsx:253-255 | the search keeps the projects in their order, and a project is shown iff its lower-cased title contains the lower-cased term at some index |
| Selectors.SearchEmptyTerm | app/page.tsx:254-255 | with the initial empty term every project is shown, in order |
| Selectors.DashboardSpec | app/page.tsx:416 | "My Projects" keeps the order and holds exactly the projects the viewer owns (Client) or is hired on (Freelancer) |
| Selectors.HasBidIff | app/page.tsx:294-297 | `hasAlreadyBid` holds iff some bid names both the project and the freelancer |
| Selectors.BidsForAfterPrepend | app/page.tsx:538-539 | a new bid heads the proposal list of its own project and leaves every other project's list unchanged |
| Selectors.PrependKeepsOneBidPerPair | app/page.tsx:375 | a new bid keeps bids unique per project and freelancer exactly when that freelancer had not yet bid on that project |
| Selectors.SumConcat | app/page.tsx:563 | the rating total of two lists is the sum of their totals |
| Selectors.SumPermutation | app/page.tsx:563 | the rating total does not depend on the order of the reviews |
| Selectors.SumBounds | app/page.tsx:563 | with every rating in 1..5 the total lies between the count and five times the count |
| Selectors.AverageBounds | app/page.tsx:562-564 | a mean of ratings in 1..5 lies in [1, 5] |
| Selectors.AverageOrderFree | app/page.tsx:562-564 | the same reviews in another order have the same mean |
| Selectors.ReviewsOfOrderFree | app/page.tsx:562-564 | a freelancer's reviews, and their mean, do not depend on the order of the review ledger |
| Market.HiredIsBidder | app/page.tsx:359-360 | in a consistent state a project past Open has a hired freelancer, who is a registered Freelancer with a bid on it |
| Market.ReviewedIsFreelancer | app/page.tsx:191-197 | every review is about a registered Freelancer |
| Market.RatingInRange | app/page.tsx:562-566 | a Freelancer's rating is 0 until reviewed and lies in [1, 5] afterwards |
| Market.FreelancerDashboardStarted | app/page.tsx:416 | a Freelancer's dashboard holds only projects past Open |
| Market.AdvancesTransitive | app/page.tsx:546-557 | the lifecycle order composes over any run of steps |
| Market.PrependAdvances | app/page.tsx:542-543 | posting keeps every existing project as it was (each id still finds the same record), so the lifecycle order holds |
| Market.MarkHiredAdvances | app/page.tsx:546-549 | hiring an Open project moves it forward and keeps every listing and earlier hire |
| Market.MarkCompletedAdvances | app/page.tsx:554-557 | completion moves the project forward and keeps every listing and hired freelancer |
| Market.FreshIdUnreviewed | app/page.tsx:122-123 | an unused id has no reviews, so a new Freelancer's mean is rightly 0 |
| Market.SignUpKeepsRefs | app/page.tsx:526-527 | a new user with a fresh id changes no project's client or bid's bidder |
| Market.SignUpKeepsConsistent | app/page.tsx:122-130 | registering the record the sign-up form builds keeps the state consistent |
| Market.PostKeepsConsistent | app/page.tsx:462-471 | posting an Open, unhired project of a registered Client keeps the state consistent |
| Market.BidKeepsConsistent | app/page.tsx:299-313 | a bid that passes the proposal form's conditions keeps the state consistent |
| Market.HireKeepsProjectsOk | app/page.tsx:546-549 | hiring a freelancer who bid keeps every project record well-formed |
| Market.HireKeepsReviewsOk | app/page.tsx:546-549 | hiring an Open project leaves every review pointing at the same Completed record |
| Market.HireKeepsConsistent | app/page.tsx:546-549 | a hire the interface offers keeps the state consistent |
| Market.CompleteKeepsProjectsOk | app/page.tsx:554-557 | completing an In Progress project keeps every project record well-formed |
| Market.CompleteKeepsReviewsOk | app/page.tsx:554-557 | completing an In Progress project leaves every review pointing at the same Completed record |
| Market.CompleteKeepsConsistent | app/page.tsx:554-557 | a completion the interface offers keeps the state consistent |
| Market.NewAverageIsReputation | app/page.tsx:560-564 | the mean over `[...reviews, newReview]` equals the reputation the new ledger `[newReview, ...reviews]` gives |
| Market.MarkRatedKeepsRefs | app/page.tsx:565-567 | re-rating changes no role, so every project's client and bid's bidder still resolves |
| Market.ReviewKeepsUsersOk | app/page.tsx:560-567 | after a review every user's rating agrees with the new ledger |
| Market.ReviewKeepsReviewsOk | app/page.tsx:187-197 | the new review is a 1..5 rating of the hired freelancer of a Completed project, and review ids stay unique |
| Market.ReviewKeepsConsistent | app/page.tsx:560-567 | a review the interface accepts keeps the state consistent |
| Market.HiredProjectClosed | app/page.tsx:359-375 | once a project is hired, no second hire and no new bid on it passes, whoever asks |
| Market.CompletedProjectFinal | app/page.tsx:359-375 | a completed project can be neither hired, bid on nor completed again |
| Market.ReviewStaysOffered | app/page.tsx:443-444 | after a review, the same review of the same project still passes: nothing marks a project as reviewed |
| Market.App.constructor | app/page.tsx:516-519 | the application starts with four empty lists, a consistent state |
| Market.App.HandleSignUp | app/page.tsx:526-527 | prepends the new user; nothing else changes |
| Market.App.AddBid | app/page.tsx:538-539 | prepends the new bid; nothing else changes |
| Market.App.AddProject | app/page.tsx:542-543 | prepends the new project; nothing else changes |
| Market.App.HandleHire | app/page.tsx:546-549 | rewrites the projects with that id to In Progress with the freelancer hired; nothing else changes |
| Market.App.HandleCompleteProject | app/page.tsx:554-557 | rewrites the projects with that id to Completed; nothing else changes |
| Market.App.HandleAddReview | app/page.tsx:560-567 | prepends the review and sets the reviewed freelancer's rating to their reputation in the new ledger |
| Market.App.SignUp | app/page.tsx:111-130 | refuses an empty name or missing role; otherwise registers a Freelancer titled "New Freelancer" rated 0, or a Client with neither; keeps the state consistent |
| Market.App.PostProject | app/page.tsx:459-472 | only a logged-in registered Client posts; the project starts Open, unhired, with the parsed skills; keeps consistency and the lifecycle order |
| Market.App.SubmitBid | app/page.tsx:292-313 | only a registered Freelancer bids, on an existing Open project they have not bid on; keeps consistency |
| Market.App.Hire | app/page.tsx:292-360 | only the owning Client hires, on an Open project, a freelancer who bid on it; keeps consistency and the lifecycle order |
| Market.App.Complete | app/page.tsx:440-441 | only the owning Client completes an In Progress project; keeps consistency and the lifecycle order |
| Market.App.SubmitReview | app/page.tsx:185-197 | only the owning Client reviews a Completed project's hired freelancer, with a star picked; the freelancer's rating becomes the mean of all their reviews; keeps consistency |
| Market.ScenarioReview | app/page.tsx:560-567 | in the worked scenario, after one four-star review the freelancer's rating is 4.0 |

## Left out

- Rendering, routing between views, modals, `alert`, `setTimeout`, avatar URLs and the success banners are presentation and are not modelled.
- Logging in and out only set the current user; the current user is the `actor` parameter of each gated action instead.
- `Date.now()` ids are parameters with a freshness precondition; the clock is not modelled.
- `FormData` access, `Number(...)` coercion and the browser's `required` attributes are not modelled. Titles, descriptions, proposals and comments may be empty, and the budget and the bid amount are unconstrained `real`s. A positive budget, a positive bid amount and a non-empty skills list are meant, but the code checks none of them.
- Market.App.HandleAddReview: the rating is the exact mean as a `real`; the rounding of `parseFloat(newAverage.toFixed(1))` on binary floating point is not modelled.
- Market.NewUser: a Freelancer starts with rating 0, as the code writes it, although an absent rating until the first review is what is meant.
- Market.ReviewStaysOffered: at most one review per project is meant, with a second one refused. The code keeps "Leave Review" on every Completed project and records nothing, so the model accepts repeated reviews, and this lemma states that.
- Text.ToLower: only the ASCII letters A-Z are lowered; JavaScript's full Unicode case mapping is not modelled.
- Text.IsSpace: `trim()` strips the ECMAScript WhiteSpace and LineTerminator code points, listed explicitly; strings are sequences of Unicode scalar values rather than UTF-16 code units.
- The review form can only be opened for a project whose hired freelancer is found (`users.find` at app/page.tsx:582), otherwise it would fail while rendering; the model reports this as `Fail(UnknownFreelancer)`.
- The gated actions act on one state at a time; React's batched and functional state updates are taken to apply in order, one action at a time.
