/**
 * The transaction lifecycle of the marketplace: the four lists the `App`
 * component keeps, the handlers that change them, and the conditions under
 * which the interface lets each handler run.
 *
 * The handlers themselves check nothing. What keeps the lists consistent is
 * that the interface offers an action only under a condition: the sign-up
 * form refuses an empty name or role, the bid form is shown only to a
 * Freelancer on an Open project they have not bid on, the hire button only
 * to the owning Client of an Open project, once per bid, and so on. Those
 * conditions are the `...Check` functions below; a request they refuse is
 * answered with a `Denial` and changes nothing.
 */
module Market {
  import opened Records
  import opened Text
  import opened Selectors

  /** Why the interface would not have offered an action. */
  datatype Denial =
    | MissingField       // sign-up without a name or a role
    | NotLoggedIn        // there is no current user
    | UnknownUser        // the current user is not a registered user
    | UnknownProject     // the project, or its client, cannot be found
    | WrongRole          // the action belongs to the other role
    | NotOwner           // the project belongs to another client
    | WrongStatus        // the project is not in the status the action needs
    | AlreadyBid         // this freelancer already has a bid on the project
    | NoSuchBid          // the freelancer to hire has no bid on the project
    | UnknownFreelancer  // the hired freelancer cannot be found
    | NoRating           // no star was picked

  datatype Outcome = Pass | Fail(denial: Denial)

  /** The component's four lists, as one value. */
  datatype Db = Db(users: seq<User>, projects: seq<Project>, bids: seq<Bid>, reviews: seq<Review>)

  // ---------------------------------------------------------------------------
  // What every reachable state satisfies

  /** The user with this id is registered and has this role. */
  predicate IsRole(us: seq<User>, id: Id, role: Role)
  {
    FindUser(us, id).Some? && FindUser(us, id).value.role == role
  }

  /** A freelancer's reputation: 0 until reviewed, then the mean of all the
      ratings they have received. */
  function Reputation(rs: seq<Review>, freelancerId: Id): real
  {
    var mine := ReviewsOf(rs, freelancerId);
    if mine == [] then 0.0 else Average(mine)
  }

  ghost predicate UserOk(db: Db, u: User)
  {
    if u.role == Freelancer then
      u.title == Some("New Freelancer") && u.rating == Some(Reputation(db.reviews, u.id))
    else
      u.title == None && u.rating == None
  }

  ghost predicate ProjectOk(db: Db, p: Project)
  {
    && IsRole(db.users, p.clientId, Client)
    && (p.status == Open <==> p.hiredFreelancerId == None)
    && (p.hiredFreelancerId.Some? ==> HasBid(db.bids, p.id, p.hiredFreelancerId.value))
  }

  ghost predicate BidOk(db: Db, b: Bid)
  {
    && FindProject(db.projects, b.projectId).Some?
    && IsRole(db.users, b.freelancerId, Freelancer)
  }

  ghost predicate ReviewOk(db: Db, r: Review)
  {
    && 1 <= r.rating <= 5
    && FindProject(db.projects, r.projectId).Some?
    && FindProject(db.projects, r.projectId).value.status == Completed
    && FindProject(db.projects, r.projectId).value.hiredFreelancerId == Some(r.freelancerId)
  }

  ghost predicate Consistent(db: Db)
  {
    && DistinctUserIds(db.users)
    && DistinctProjectIds(db.projects)
    && DistinctBidIds(db.bids)
    && DistinctReviewIds(db.reviews)
    && (forall u :: u in db.users ==> UserOk(db, u))
    && (forall p :: p in db.projects ==> ProjectOk(db, p))
    && (forall b :: b in db.bids ==> BidOk(db, b))
    && OneBidPerPair(db.bids)
    && (forall r :: r in db.reviews ==> ReviewOk(db, r))
  }

  /** The lifecycle of a project: the listing stays as posted, the status
      never moves back, and a hired freelancer is never replaced. */
  predicate Succeeds(p: Project, q: Project)
  {
    && q.id == p.id && q.title == p.title && q.description == p.description
    && q.budget == p.budget && q.skills == p.skills && q.clientId == p.clientId
    && Rank(p.status) <= Rank(q.status)
    && (p.hiredFreelancerId.Some? ==> q.hiredFreelancerId == p.hiredFreelancerId)
  }

  /** Every project of `before` is still in `after`, at the same or a later
      point of its lifecycle. */
  ghost predicate Advances(before: seq<Project>, after: seq<Project>)
  {
    forall p :: p in before ==>
      FindProject(after, p.id).Some? && Succeeds(p, FindProject(after, p.id).value)
  }

  // ---------------------------------------------------------------------------
  // The conditions under which the interface offers each action

  /** `AuthModal.handleSignUp`: name and role must both be filled in. */
  function SignUpCheck(name: string, role: Option<Role>): Outcome
  {
    if name == [] || role.None? then Fail(MissingField) else Pass
  }

  /** The record sign-up builds: a Freelancer starts with the title
      "New Freelancer" and rating 0, a Client has neither. */
  function NewUser(id: Id, name: string, role: Role): User
  {
    User(id, name, role,
      if role == Freelancer then Some("New Freelancer") else None,
      if role == Freelancer then Some(0.0) else None)
  }

  /** "Post Project" is in the header for a logged-in Client only. */
  function PostCheck(db: Db, actor: Option<Id>): Outcome
  {
    if actor.None? then Fail(NotLoggedIn)
    else if FindUser(db.users, actor.value).None? then Fail(UnknownUser)
    else if FindUser(db.users, actor.value).value.role != Client then Fail(WrongRole)
    else Pass
  }

  /** The record `PostProjectView.handleSubmit` builds: Open, nobody hired,
      the skills field split at commas and trimmed. */
  function NewProject(id: Id, title: string, description: string, budget: real,
                      skillsText: string, clientId: Id): Project
  {
    Project(id, title, description, budget, ParseSkills(skillsText), clientId, Open, None)
  }

  /** The proposal form shows on an existing project, to a logged-in
      Freelancer, while the project is Open and they have not bid on it. */
  function BidCheck(db: Db, actor: Option<Id>, projectId: Id): Outcome
  {
    if FindProject(db.projects, projectId).None?
       || FindUser(db.users, FindProject(db.projects, projectId).value.clientId).None?
    then Fail(UnknownProject)
    else if actor.None? then Fail(NotLoggedIn)
    else if FindUser(db.users, actor.value).None? then Fail(UnknownUser)
    else if FindUser(db.users, actor.value).value.role != Freelancer then Fail(WrongRole)
    else if FindProject(db.projects, projectId).value.status != Open then Fail(WrongStatus)
    else if HasBid(db.bids, projectId, actor.value) then Fail(AlreadyBid)
    else Pass
  }

  /** "Accept & Hire" shows on each bid of an existing project, to its
      owning Client, while the project is Open. */
  function HireCheck(db: Db, actor: Option<Id>, projectId: Id, freelancerId: Id): Outcome
  {
    if FindProject(db.projects, projectId).None?
       || FindUser(db.users, FindProject(db.projects, projectId).value.clientId).None?
    then Fail(UnknownProject)
    else if actor.None? then Fail(NotLoggedIn)
    else if FindUser(db.users, actor.value).None? then Fail(UnknownUser)
    else if FindUser(db.users, actor.value).value.role != Client then Fail(WrongRole)
    else if FindProject(db.projects, projectId).value.clientId != actor.value then Fail(NotOwner)
    else if FindProject(db.projects, projectId).value.status != Open then Fail(WrongStatus)
    else if !HasBid(db.bids, projectId, freelancerId) then Fail(NoSuchBid)
    else Pass
  }

  /** "Mark Complete" shows on a Client's own dashboard project while it is
      In Progress. */
  function CompleteCheck(db: Db, actor: Option<Id>, projectId: Id): Outcome
  {
    if actor.None? then Fail(NotLoggedIn)
    else if FindUser(db.users, actor.value).None? then Fail(UnknownUser)
    else if FindProject(db.projects, projectId).None? then Fail(UnknownProject)
    else if FindUser(db.users, actor.value).value.role != Client then Fail(WrongRole)
    else if FindProject(db.projects, projectId).value.clientId != actor.value then Fail(NotOwner)
    else if FindProject(db.projects, projectId).value.status != InProgress then Fail(WrongStatus)
    else Pass
  }

  /** "Leave Review" shows on a Client's own dashboard project once it is
      Completed; the review form opens for the hired freelancer and refuses
      to submit while no star is picked. */
  function ReviewCheck(db: Db, actor: Option<Id>, projectId: Id, rating: int): Outcome
  {
    if actor.None? then Fail(NotLoggedIn)
    else if FindUser(db.users, actor.value).None? then Fail(UnknownUser)
    else if FindProject(db.projects, projectId).None? then Fail(UnknownProject)
    else if FindUser(db.users, actor.value).value.role != Client then Fail(WrongRole)
    else if FindProject(db.projects, projectId).value.clientId != actor.value then Fail(NotOwner)
    else if FindProject(db.projects, projectId).value.status != Completed then Fail(WrongStatus)
    else if FindProject(db.projects, projectId).value.hiredFreelancerId.None?
         || FindUser(db.users, FindProject(db.projects, projectId).value.hiredFreelancerId.value).None?
    then Fail(UnknownFreelancer)
    else if rating == 0 then Fail(NoRating)
    else Pass
  }

  // ---------------------------------------------------------------------------
  // Facts about consistent states

  /** A freelancer on a project has a bid on it and is a registered
      Freelancer: nobody is hired who did not bid. */
  lemma HiredIsBidder(db: Db, p: Project)
    requires Consistent(db)
    requires p in db.projects
    requires p.status != Open
    ensures p.hiredFreelancerId.Some?
    ensures exists b :: b in db.bids && b.projectId == p.id && b.freelancerId == p.hiredFreelancerId.value
    ensures IsRole(db.users, p.hiredFreelancerId.value, Freelancer)
  {
    assert ProjectOk(db, p);
    HasBidIff(db.bids, p.id, p.hiredFreelancerId.value);
    var b :| b in db.bids && b.projectId == p.id && b.freelancerId == p.hiredFreelancerId.value;
    assert BidOk(db, b);
  }

  /** Every review is about a registered Freelancer. */
  lemma ReviewedIsFreelancer(db: Db, r: Review)
    requires Consistent(db)
    requires r in db.reviews
    ensures IsRole(db.users, r.freelancerId, Freelancer)
  {
    assert ReviewOk(db, r);
    HiredIsBidder(db, FindProject(db.projects, r.projectId).value);
  }

  /** A reviewed freelancer's rating lies in [1, 5]; an unreviewed one's is 0. */
  lemma RatingInRange(db: Db, u: User)
    requires Consistent(db)
    requires u in db.users && u.role == Freelancer
    ensures u.rating.Some?
    ensures ReviewsOf(db.reviews, u.id) == [] ==> u.rating.value == 0.0
    ensures ReviewsOf(db.reviews, u.id) != [] ==> 1.0 <= u.rating.value <= 5.0
  {
    assert UserOk(db, u);
    var mine := ReviewsOf(db.reviews, u.id);
    if mine != [] {
      FilterMembers(db.reviews, About, u.id);
      forall k | 0 <= k < |mine| ensures 1 <= mine[k].rating <= 5 {
        assert mine[k] in db.reviews;
        assert ReviewOk(db, mine[k]);
      }
      AverageBounds(mine);
    }
  }

  /** A Freelancer's dashboard holds only projects past Open. */
  lemma FreelancerDashboardStarted(db: Db, viewer: User)
    requires Consistent(db)
    requires viewer.role == Freelancer
    ensures forall p :: p in Dashboard(db.projects, viewer) ==> p.status != Open
  {
    DashboardSpec(db.projects, viewer);
    forall p | p in Dashboard(db.projects, viewer) ensures p.status != Open {
      assert ProjectOk(db, p);
    }
  }

  /** The lifecycle order is transitive: over any run of steps that each
      advance the projects, the projects advance. */
  lemma AdvancesTransitive(a: seq<Project>, b: seq<Project>, c: seq<Project>)
    requires Advances(a, b) && Advances(b, c)
    ensures Advances(a, c)
  {
    forall p | p in a
      ensures FindProject(c, p.id).Some? && Succeeds(p, FindProject(c, p.id).value)
    {
      var q := FindProject(b, p.id).value;
      assert q in b && q.id == p.id;
    }
  }

  /** Posting a project adds it and keeps every other one as it was, so
      the lifecycle order holds. */
  lemma PrependAdvances(p: Project, ps: seq<Project>)
    requires DistinctProjectIds(ps)
    requires FreshProjectId(ps, p.id)
    ensures forall q :: q in ps ==> FindProject([p] + ps, q.id) == Some(q)
    ensures Advances(ps, [p] + ps)
  {
    forall q | q in ps ensures FindProject([p] + ps, q.id) == Some(q) {
      FindProjectPrepend(p, ps, q.id);
      FindProjectOf(ps, q);
    }
  }

  /** Hiring moves the hired project from Open to In Progress and keeps
      every project's listing and any earlier hire. */
  lemma MarkHiredAdvances(ps: seq<Project>, projectId: Id, freelancerId: Id)
    requires DistinctProjectIds(ps)
    requires FindProject(ps, projectId).Some? && FindProject(ps, projectId).value.status == Open
    requires FindProject(ps, projectId).value.hiredFreelancerId == None
    ensures Advances(ps, MarkHired(ps, projectId, freelancerId))
  {
    forall q | q in ps
      ensures FindProject(MarkHired(ps, projectId, freelancerId), q.id).Some?
      ensures Succeeds(q, FindProject(MarkHired(ps, projectId, freelancerId), q.id).value)
    {
      FindAfterMarkHired(ps, projectId, freelancerId, q.id);
      FindProjectOf(ps, q);
    }
  }

  /** Completion moves the project from In Progress to Completed and keeps
      every project's listing and hired freelancer. */
  lemma MarkCompletedAdvances(ps: seq<Project>, projectId: Id)
    requires DistinctProjectIds(ps)
    ensures Advances(ps, MarkCompleted(ps, projectId))
  {
    forall q | q in ps
      ensures FindProject(MarkCompleted(ps, projectId), q.id).Some?
      ensures Succeeds(q, FindProject(MarkCompleted(ps, projectId), q.id).value)
    {
      FindAfterMarkCompleted(ps, projectId, q.id);
      FindProjectOf(ps, q);
    }
  }

  // ---------------------------------------------------------------------------
  // Each action the interface offers keeps the state consistent

  /** A fresh id has no reviews: every review is about a registered user. */
  lemma FreshIdUnreviewed(db: Db, id: Id)
    requires Consistent(db)
    requires FreshUserId(db.users, id)
    ensures ReviewsOf(db.reviews, id) == []
  {
    forall k | 0 <= k < |db.reviews| ensures !About(db.reviews[k], id) {
      ReviewedIsFreelancer(db, db.reviews[k]);
    }
    FilterNone(db.reviews, About, id);
  }

  /** Registering a user with a fresh id changes no existing lookup. */
  lemma SignUpKeepsRefs(db: Db, u: User)
    requires Consistent(db)
    requires FreshUserId(db.users, u.id)
    ensures forall p :: p in db.projects ==> ProjectOk(db.(users := [u] + db.users), p)
    ensures forall b :: b in db.bids ==> BidOk(db.(users := [u] + db.users), b)
  {
    forall id | FindUser(db.users, id).Some? ensures FindUser([u] + db.users, id) == FindUser(db.users, id) {
      FindUserPrepend(u, db.users, id);
    }
    forall p | p in db.projects ensures ProjectOk(db.(users := [u] + db.users), p) {
      assert ProjectOk(db, p);
    }
    forall b | b in db.bids ensures BidOk(db.(users := [u] + db.users), b) {
      assert BidOk(db, b);
    }
  }

  lemma SignUpKeepsConsistent(db: Db, u: User)
    requires Consistent(db)
    requires FreshUserId(db.users, u.id)
    requires u == NewUser(u.id, u.name, u.role)
    ensures Consistent(db.(users := [u] + db.users))
  {
    var db' := db.(users := [u] + db.users);
    FreshIdUnreviewed(db, u.id);
    assert UserOk(db', u);
    forall v | v in db'.users ensures UserOk(db', v) {
      if v != u { assert v in db.users && UserOk(db, v); }
    }
    SignUpKeepsRefs(db, u);
    forall r | r in db'.reviews ensures ReviewOk(db', r) {
      assert ReviewOk(db, r);
    }
    assert DistinctUserIds(db'.users) by {
      forall i, j | 0 <= i < j < |db'.users| ensures db'.users[i].id != db'.users[j].id {
        assert db'.users[j] == db.users[j - 1] && db'.users[j] in db.users;
      }
    }
  }

  lemma PostKeepsConsistent(db: Db, p: Project)
    requires Consistent(db)
    requires FreshProjectId(db.projects, p.id)
    requires IsRole(db.users, p.clientId, Client)
    requires p.status == Open && p.hiredFreelancerId == None
    ensures Consistent(db.(projects := [p] + db.projects))
  {
    var db' := db.(projects := [p] + db.projects);
    forall id | FindProject(db.projects, id).Some?
      ensures FindProject(db'.projects, id) == FindProject(db.projects, id)
    {
      FindProjectPrepend(p, db.projects, id);
    }
    forall v | v in db'.users ensures UserOk(db', v) {
      assert UserOk(db, v);
    }
    forall q | q in db'.projects ensures ProjectOk(db', q) {
      if q != p { assert q in db.projects && ProjectOk(db, q); }
    }
    forall b | b in db'.bids ensures BidOk(db', b) {
      assert BidOk(db, b);
    }
    forall r | r in db'.reviews ensures ReviewOk(db', r) {
      assert ReviewOk(db, r);
    }
    assert DistinctProjectIds(db'.projects) by {
      forall i, j | 0 <= i < j < |db'.projects| ensures db'.projects[i].id != db'.projects[j].id {
        assert db'.projects[j] == db.projects[j - 1] && db'.projects[j] in db.projects;
      }
    }
  }

  lemma BidKeepsConsistent(db: Db, b: Bid)
    requires Consistent(db)
    requires FreshBidId(db.bids, b.id)
    requires BidCheck(db, Some(b.freelancerId), b.projectId) == Pass
    ensures Consistent(db.(bids := [b] + db.bids))
  {
    var db' := db.(bids := [b] + db.bids);
    forall pid, fid | HasBid(db.bids, pid, fid) ensures HasBid(db'.bids, pid, fid) {
      HasBidIff(db.bids, pid, fid);
      HasBidIff(db'.bids, pid, fid);
      var c :| c in db.bids && c.projectId == pid && c.freelancerId == fid;
      assert c in db'.bids;
    }
    forall v | v in db'.users ensures UserOk(db', v) {
      assert UserOk(db, v);
    }
    forall q | q in db'.projects ensures ProjectOk(db', q) {
      assert ProjectOk(db, q);
    }
    forall c | c in db'.bids ensures BidOk(db', c) {
      if c != b { assert c in db.bids && BidOk(db, c); }
    }
    forall r | r in db'.reviews ensures ReviewOk(db', r) {
      assert ReviewOk(db, r);
    }
    PrependKeepsOneBidPerPair(b, db.bids);
    assert DistinctBidIds(db'.bids) by {
      forall i, j | 0 <= i < j < |db'.bids| ensures db'.bids[i].id != db'.bids[j].id {
        assert db'.bids[j] == db.bids[j - 1] && db'.bids[j] in db.bids;
      }
    }
  }

  /** Hiring a bidder keeps every project record well-formed: the hired one
      is In Progress with a freelancer who bid on it, the others are as they
      were (and a project's well-formedness does not look at other projects). */
  lemma HireKeepsProjectsOk(db: Db, projectId: Id, freelancerId: Id)
    requires Consistent(db)
    requires HasBid(db.bids, projectId, freelancerId)
    ensures forall q :: q in MarkHired(db.projects, projectId, freelancerId) ==>
      ProjectOk(db.(projects := MarkHired(db.projects, projectId, freelancerId)), q)
  {
    var ps := db.projects;
    var ps' := MarkHired(ps, projectId, freelancerId);
    var db' := db.(projects := ps');
    MarkHiredKeepsIds(ps, projectId, freelancerId);
    forall q' | q' in ps' ensures ProjectOk(db', q') {
      var i :| 0 <= i < |ps'| && ps'[i] == q';
      MarkHiredAt(ps, projectId, freelancerId, i);
      assert ProjectOk(db, ps[i]);
    }
  }

  /** Hiring touches only an Open project, and every reviewed project is
      Completed, so each review still points at the same record. */
  lemma HireKeepsReviewsOk(db: Db, projectId: Id, freelancerId: Id)
    requires Consistent(db)
    requires FindProject(db.projects, projectId).Some?
    requires FindProject(db.projects, projectId).value.status == Open
    ensures forall r :: r in db.reviews ==>
      ReviewOk(db.(projects := MarkHired(db.projects, projectId, freelancerId)), r)
  {
    var ps := db.projects;
    var db' := db.(projects := MarkHired(ps, projectId, freelancerId));
    forall r | r in db.reviews ensures ReviewOk(db', r) {
      assert ReviewOk(db, r);
      FindAfterMarkHired(ps, projectId, freelancerId, r.projectId);
    }
  }

  lemma HireKeepsConsistent(db: Db, actor: Option<Id>, projectId: Id, freelancerId: Id)
    requires Consistent(db)
    requires HireCheck(db, actor, projectId, freelancerId) == Pass
    ensures Consistent(db.(projects := MarkHired(db.projects, projectId, freelancerId)))
  {
    var ps := db.projects;
    var ps' := MarkHired(ps, projectId, freelancerId);
    var db' := db.(projects := ps');
    MarkHiredKeepsIds(ps, projectId, freelancerId);
    HireKeepsProjectsOk(db, projectId, freelancerId);
    HireKeepsReviewsOk(db, projectId, freelancerId);
    forall id | FindProject(ps, id).Some? ensures FindProject(ps', id).Some? {
      FindAfterMarkHired(ps, projectId, freelancerId, id);
    }
    forall v | v in db'.users ensures UserOk(db', v) {
      assert UserOk(db, v);
    }
    forall b | b in db'.bids ensures BidOk(db', b) {
      assert BidOk(db, b);
    }
  }

  /** Completion keeps every project record well-formed: the completed one
      is no longer Open and keeps its hired freelancer. */
  lemma CompleteKeepsProjectsOk(db: Db, projectId: Id)
    requires Consistent(db)
    requires FindProject(db.projects, projectId).Some?
    requires FindProject(db.projects, projectId).value.status == InProgress
    ensures forall q :: q in MarkCompleted(db.projects, projectId) ==>
      ProjectOk(db.(projects := MarkCompleted(db.projects, projectId)), q)
  {
    var ps := db.projects;
    var ps' := MarkCompleted(ps, projectId);
    var db' := db.(projects := ps');
    MarkCompletedKeepsIds(ps, projectId);
    forall q' | q' in ps' ensures ProjectOk(db', q') {
      var i :| 0 <= i < |ps'| && ps'[i] == q';
      MarkCompletedAt(ps, projectId, i);
      assert ProjectOk(db, ps[i]);
      if ps[i].id == projectId {
        FindProjectOf(ps, ps[i]);
      }
    }
  }

  /** Completion touches only an In Progress project, so every review still
      points at the same Completed record. */
  lemma CompleteKeepsReviewsOk(db: Db, projectId: Id)
    requires Consistent(db)
    requires FindProject(db.projects, projectId).Some?
    requires FindProject(db.projects, projectId).value.status == InProgress
    ensures forall r :: r in db.reviews ==>
      ReviewOk(db.(projects := MarkCompleted(db.projects, projectId)), r)
  {
    var ps := db.projects;
    var db' := db.(projects := MarkCompleted(ps, projectId));
    forall r | r in db.reviews ensures ReviewOk(db', r) {
      assert ReviewOk(db, r);
      FindAfterMarkCompleted(ps, projectId, r.projectId);
    }
  }

  lemma CompleteKeepsConsistent(db: Db, actor: Option<Id>, projectId: Id)
    requires Consistent(db)
    requires CompleteCheck(db, actor, projectId) == Pass
    ensures Consistent(db.(projects := MarkCompleted(db.projects, projectId)))
  {
    var ps := db.projects;
    var ps' := MarkCompleted(ps, projectId);
    var db' := db.(projects := ps');
    MarkCompletedKeepsIds(ps, projectId);
    CompleteKeepsProjectsOk(db, projectId);
    CompleteKeepsReviewsOk(db, projectId);
    forall id | FindProject(ps, id).Some? ensures FindProject(ps', id).Some? {
      FindAfterMarkCompleted(ps, projectId, id);
    }
    forall v | v in db'.users ensures UserOk(db', v) {
      assert UserOk(db, v);
    }
    forall b | b in db'.bids ensures BidOk(db', b) {
      assert BidOk(db, b);
    }
  }

  /** The mean the review handler computes from `[...reviews, newReview]`
      is the reputation the new ledger `[newReview, ...reviews]` gives. */
  lemma NewAverageIsReputation(rs: seq<Review>, r: Review)
    ensures ReviewsOf(rs + [r], r.freelancerId) != []
    ensures Average(ReviewsOf(rs + [r], r.freelancerId)) == Reputation([r] + rs, r.freelancerId)
  {
    FilterConcat(rs, [r], About, r.freelancerId);
    assert ReviewsOf([r], r.freelancerId) == [r];
    assert multiset(rs + [r]) == multiset([r] + rs);
    ReviewsOfOrderFree(rs + [r], [r] + rs, r.freelancerId);
  }

  /** Re-rating a user changes no role, so no lookup of a client or a
      bidder changes its answer. */
  lemma MarkRatedKeepsRefs(db: Db, freelancerId: Id, mean: real)
    requires Consistent(db)
    ensures forall p :: p in db.projects ==> ProjectOk(db.(users := MarkRated(db.users, freelancerId, mean)), p)
    ensures forall b :: b in db.bids ==> BidOk(db.(users := MarkRated(db.users, freelancerId, mean)), b)
  {
    var us' := MarkRated(db.users, freelancerId, mean);
    forall id | FindUser(db.users, id).Some?
      ensures FindUser(us', id).Some? && FindUser(us', id).value.role == FindUser(db.users, id).value.role
    {
      FindAfterMarkRated(db.users, freelancerId, mean, id);
    }
    forall p | p in db.projects ensures ProjectOk(db.(users := us'), p) {
      assert ProjectOk(db, p);
    }
    forall b | b in db.bids ensures BidOk(db.(users := us'), b) {
      assert BidOk(db, b);
    }
  }

  /** The state after `handleAddReview`: the review heads the ledger and
      the reviewed freelancer's rating is their reputation in the new ledger. */
  function WithReview(db: Db, r: Review): Db
  {
    var reviews' := [r] + db.reviews;
    Db(MarkRated(db.users, r.freelancerId, Reputation(reviews', r.freelancerId)),
       db.projects, db.bids, reviews')
  }

  /** After a review of a registered Freelancer, every user's rating agrees
      with the new ledger: the reviewed one's is the new mean, the others'
      reviews did not change. */
  lemma ReviewKeepsUsersOk(db: Db, r: Review)
    requires Consistent(db)
    requires IsRole(db.users, r.freelancerId, Freelancer)
    ensures forall v :: v in WithReview(db, r).users ==> UserOk(WithReview(db, r), v)
  {
    var db' := WithReview(db, r);
    var mean := Reputation(db'.reviews, r.freelancerId);
    MarkRatedKeepsIds(db.users, r.freelancerId, mean);
    forall v' | v' in db'.users ensures UserOk(db', v') {
      var i :| 0 <= i < |db'.users| && db'.users[i] == v';
      MarkRatedAt(db.users, r.freelancerId, mean, i);
      var v := db.users[i];
      assert UserOk(db, v);
      if v.id == r.freelancerId {
        FindUserOf(db.users, v);
      } else {
        assert ([r] + db.reviews)[1..] == db.reviews;
        assert ReviewsOf(db'.reviews, v.id) == ReviewsOf(db.reviews, v.id);
      }
    }
  }

  /** The new review names the hired freelancer of a Completed project with
      a picked star, so every review stays well-formed. */
  lemma ReviewKeepsReviewsOk(db: Db, actor: Option<Id>, r: Review)
    requires Consistent(db)
    requires FreshReviewId(db.reviews, r.id)
    requires 0 <= r.rating <= 5
    requires ReviewCheck(db, actor, r.projectId, r.rating) == Pass
    requires r.freelancerId == FindProject(db.projects, r.projectId).value.hiredFreelancerId.value
    ensures DistinctReviewIds([r] + db.reviews)
    ensures forall c :: c in [r] + db.reviews ==> ReviewOk(WithReview(db, r), c)
  {
    var rs' := [r] + db.reviews;
    forall c | c in rs' ensures ReviewOk(WithReview(db, r), c) {
      if c != r { assert c in db.reviews && ReviewOk(db, c); }
    }
    forall i, j | 0 <= i < j < |rs'| ensures rs'[i].id != rs'[j].id {
      assert rs'[j] == db.reviews[j - 1] && rs'[j] in db.reviews;
    }
  }

  lemma ReviewKeepsConsistent(db: Db, actor: Option<Id>, r: Review)
    requires Consistent(db)
    requires FreshReviewId(db.reviews, r.id)
    requires 0 <= r.rating <= 5
    requires ReviewCheck(db, actor, r.projectId, r.rating) == Pass
    requires r.freelancerId == FindProject(db.projects, r.projectId).value.hiredFreelancerId.value
    ensures Consistent(WithReview(db, r))
  {
    var db' := WithReview(db, r);
    var mean := Reputation(db'.reviews, r.freelancerId);
    MarkRatedKeepsIds(db.users, r.freelancerId, mean);
    assert IsRole(db.users, r.freelancerId, Freelancer) by {
      HiredIsBidder(db, FindProject(db.projects, r.projectId).value);
    }
    ReviewKeepsUsersOk(db, r);
    MarkRatedKeepsRefs(db, r.freelancerId, mean);
    ReviewKeepsReviewsOk(db, actor, r);
  }

  // ---------------------------------------------------------------------------
  // Closed transitions

  /** Once a project is hired it is no longer Open, so the interface offers
      neither a second hire nor a new bid on it, whoever asks. */
  lemma HiredProjectClosed(db: Db, actor: Option<Id>, projectId: Id, freelancerId: Id,
                           someone: Option<Id>, anyone: Id)
    requires HireCheck(db, actor, projectId, freelancerId) == Pass
    ensures HireCheck(db.(projects := MarkHired(db.projects, projectId, freelancerId)),
                      someone, projectId, anyone) != Pass
    ensures BidCheck(db.(projects := MarkHired(db.projects, projectId, freelancerId)),
                     someone, projectId) != Pass
  {
    FindAfterMarkHired(db.projects, projectId, freelancerId, projectId);
  }

  /** A completed project is final: it cannot be hired, bid on or completed
      again. */
  lemma CompletedProjectFinal(db: Db, actor: Option<Id>, projectId: Id,
                              someone: Option<Id>, anyone: Id)
    requires CompleteCheck(db, actor, projectId) == Pass
    ensures HireCheck(db.(projects := MarkCompleted(db.projects, projectId)),
                      someone, projectId, anyone) != Pass
    ensures BidCheck(db.(projects := MarkCompleted(db.projects, projectId)),
                     someone, projectId) != Pass
    ensures CompleteCheck(db.(projects := MarkCompleted(db.projects, projectId)),
                          someone, projectId) != Pass
  {
    FindAfterMarkCompleted(db.projects, projectId, projectId);
  }

  /** Nothing records that a project was reviewed: after a review the same
      client can review the same project again, and each further review
      counts in the freelancer's mean. */
  lemma ReviewStaysOffered(db: Db, actor: Option<Id>, r: Review)
    requires ReviewCheck(db, actor, r.projectId, r.rating) == Pass
    ensures ReviewCheck(WithReview(db, r), actor, r.projectId, r.rating) == Pass
  {
    var mean := Reputation([r] + db.reviews, r.freelancerId);
    FindAfterMarkRated(db.users, r.freelancerId, mean, actor.value);
    var p := FindProject(db.projects, r.projectId).value;
    FindAfterMarkRated(db.users, r.freelancerId, mean, p.hiredFreelancerId.value);
  }

  // ---------------------------------------------------------------------------
  // The `App` component's state and handlers

  class App {
    var users: seq<User>
    var projects: seq<Project>
    var bids: seq<Bid>
    var reviews: seq<Review>

    function State(): Db
      reads this
    {
      Db(users, projects, bids, reviews)
    }

    ghost predicate Valid()
      reads this
    {
      Consistent(State())
    }

    /** The application starts with no data at all. */
    constructor ()
      ensures Valid()
      ensures users == [] && projects == [] && bids == [] && reviews == []
    {
      users, projects, bids, reviews := [], [], [], [];
    }

    // The handlers, as written: each prepends a record or rewrites the
    // records with one id, and checks nothing. Ids come from the clock and
    // are taken to be fresh.

    method HandleSignUp(newUser: User)
      requires FreshUserId(users, newUser.id)
      modifies this
      ensures users == [newUser] + old(users)
      ensures projects == old(projects) && bids == old(bids) && reviews == old(reviews)
    {
      users := [newUser] + users;
    }

    method AddBid(newBid: Bid)
      requires FreshBidId(bids, newBid.id)
      modifies this
      ensures bids == [newBid] + old(bids)
      ensures users == old(users) && projects == old(projects) && reviews == old(reviews)
    {
      bids := [newBid] + bids;
    }

    method AddProject(newProject: Project)
      requires FreshProjectId(projects, newProject.id)
      modifies this
      ensures projects == [newProject] + old(projects)
      ensures users == old(users) && bids == old(bids) && reviews == old(reviews)
    {
      projects := [newProject] + projects;
    }

    method HandleHire(projectId: Id, freelancerId: Id)
      modifies this
      ensures projects == MarkHired(old(projects), projectId, freelancerId)
      ensures users == old(users) && bids == old(bids) && reviews == old(reviews)
    {
      projects := MarkHired(projects, projectId, freelancerId);
    }

    method HandleCompleteProject(projectId: Id)
      modifies this
      ensures projects == MarkCompleted(old(projects), projectId)
      ensures users == old(users) && bids == old(bids) && reviews == old(reviews)
    {
      projects := MarkCompleted(projects, projectId);
    }

    /** Records the review, then sets the reviewed freelancer's rating to the
        mean of every rating they have received, this one included. */
    method HandleAddReview(newReview: Review)
      requires FreshReviewId(reviews, newReview.id)
      modifies this
      ensures reviews == [newReview] + old(reviews)
      ensures users == MarkRated(old(users), newReview.freelancerId,
                                 Reputation(reviews, newReview.freelancerId))
      ensures projects == old(projects) && bids == old(bids)
    {
      var freelancerReviews := ReviewsOf(reviews + [newReview], newReview.freelancerId);
      NewAverageIsReputation(reviews, newReview);
      var totalRating := SumRatings(freelancerReviews);
      var newAverage := totalRating as real / |freelancerReviews| as real;
      reviews := [newReview] + reviews;
      users := MarkRated(users, newReview.freelancerId, newAverage);
    }

    // The actions as the interface offers them: the check first, then the
    // handler.

    /** The sign-up form. */
    method SignUp(id: Id, name: string, role: Option<Role>) returns (outcome: Outcome)
      requires Valid()
      requires FreshUserId(users, id)
      modifies this
      ensures Valid()
      ensures outcome == SignUpCheck(name, role)
      ensures users == if outcome.Pass? then [NewUser(id, name, role.value)] + old(users) else old(users)
      ensures projects == old(projects) && bids == old(bids) && reviews == old(reviews)
    {
      outcome := SignUpCheck(name, role);
      if outcome.Pass? {
        var newUser := NewUser(id, name, role.value);
        SignUpKeepsConsistent(State(), newUser);
        HandleSignUp(newUser);
      }
    }

    /** The post-project form, reached from the header. */
    method PostProject(actor: Option<Id>, id: Id, title: string, description: string,
                       budget: real, skillsText: string) returns (outcome: Outcome)
      requires Valid()
      requires FreshProjectId(projects, id)
      modifies this
      ensures Valid()
      ensures outcome == PostCheck(old(State()), actor)
      ensures projects == if outcome.Pass?
        then [NewProject(id, title, description, budget, skillsText, actor.value)] + old(projects)
        else old(projects)
      ensures Advances(old(projects), projects)
      ensures users == old(users) && bids == old(bids) && reviews == old(reviews)
    {
      outcome := PostCheck(State(), actor);
      if outcome.Pass? {
        var newProject := NewProject(id, title, description, budget, skillsText, actor.value);
        PostKeepsConsistent(State(), newProject);
        PrependAdvances(newProject, projects);
        AddProject(newProject);
      } else {
        SelfAdvances(projects);
      }
    }

    /** The proposal form on a project page. */
    method SubmitBid(actor: Option<Id>, projectId: Id, id: Id, bidAmount: real,
                     proposalText: string) returns (outcome: Outcome)
      requires Valid()
      requires FreshBidId(bids, id)
      modifies this
      ensures Valid()
      ensures outcome == BidCheck(old(State()), actor, projectId)
      ensures bids == if outcome.Pass?
        then [Bid(id, projectId, actor.value, bidAmount, proposalText)] + old(bids)
        else old(bids)
      ensures users == old(users) && projects == old(projects) && reviews == old(reviews)
    {
      outcome := BidCheck(State(), actor, projectId);
      if outcome.Pass? {
        var newBid := Bid(id, projectId, actor.value, bidAmount, proposalText);
        BidKeepsConsistent(State(), newBid);
        AddBid(newBid);
      }
    }

    /** "Accept & Hire" on one of a project's bids. */
    method Hire(actor: Option<Id>, projectId: Id, freelancerId: Id) returns (outcome: Outcome)
      requires Valid()
      modifies this
      ensures Valid()
      ensures outcome == HireCheck(old(State()), actor, projectId, freelancerId)
      ensures projects == if outcome.Pass?
        then MarkHired(old(projects), projectId, freelancerId)
        else old(projects)
      ensures Advances(old(projects), projects)
      ensures users == old(users) && bids == old(bids) && reviews == old(reviews)
    {
      outcome := HireCheck(State(), actor, projectId, freelancerId);
      SelfAdvances(projects);
      if outcome.Pass? {
        HireKeepsConsistent(State(), actor, projectId, freelancerId);
        assert ProjectOk(State(), FindProject(projects, projectId).value);
        MarkHiredAdvances(projects, projectId, freelancerId);
        HandleHire(projectId, freelancerId);
      }
    }

    /** "Mark Complete" on the dashboard. */
    method Complete(actor: Option<Id>, projectId: Id) returns (outcome: Outcome)
      requires Valid()
      modifies this
      ensures Valid()
      ensures outcome == CompleteCheck(old(State()), actor, projectId)
      ensures projects == if outcome.Pass? then MarkCompleted(old(projects), projectId) else old(projects)
      ensures Advances(old(projects), projects)
      ensures users == old(users) && bids == old(bids) && reviews == old(reviews)
    {
      outcome := CompleteCheck(State(), actor, projectId);
      SelfAdvances(projects);
      if outcome.Pass? {
        CompleteKeepsConsistent(State(), actor, projectId);
        MarkCompletedAdvances(projects, projectId);
        HandleCompleteProject(projectId);
      }
    }

    /** "Leave Review" on the dashboard, then the review form. The star
        picker holds 0 until a star from 1 to 5 is clicked. */
    method SubmitReview(actor: Option<Id>, projectId: Id, id: Id, rating: int,
                        comment: string) returns (outcome: Outcome)
      requires Valid()
      requires FreshReviewId(reviews, id)
      requires 0 <= rating <= 5
      modifies this
      ensures Valid()
      ensures outcome == ReviewCheck(old(State()), actor, projectId, rating)
      ensures outcome.Pass? ==>
        var freelancerId := FindProject(old(projects), projectId).value.hiredFreelancerId.value;
        && reviews == [Review(id, projectId, freelancerId, rating, comment)] + old(reviews)
        && users == MarkRated(old(users), freelancerId, Reputation(reviews, freelancerId))
      ensures outcome.Fail? ==> reviews == old(reviews) && users == old(users)
      ensures projects == old(projects) && bids == old(bids)
    {
      outcome := ReviewCheck(State(), actor, projectId, rating);
      if outcome.Pass? {
        var project := FindProject(projects, projectId).value;
        var freelancer := FindUser(users, project.hiredFreelancerId.value).value;
        var newReview := Review(id, projectId, freelancer.id, rating, comment);
        ReviewKeepsConsistent(State(), actor, newReview);
        HandleAddReview(newReview);
      }
    }
  }

  /** Doing nothing advances nothing: every project is its own successor. */
  lemma SelfAdvances(ps: seq<Project>)
    requires DistinctProjectIds(ps)
    ensures Advances(ps, ps)
  {
    forall q | q in ps ensures FindProject(ps, q.id) == Some(q) {
      FindProjectOf(ps, q);
    }
  }

  // ---------------------------------------------------------------------------
  // One run through the lifecycle: Ada (a Client) posts a project, Lin (a
  // Freelancer) bids and is hired, Ada marks the work complete and rates it

  const Ada := NewUser(1, "Ada", Client)
  const Lin := NewUser(2, "Lin", Freelancer)
  const Logo := NewProject(10, "Logo", "A logo", 500.0, "svg", 1)
  const LinsBid := Bid(20, 10, 2, 450.0, "I can do it")
  const LogoHired := Logo.(status := InProgress, hiredFreelancerId := Some(2))
  const LogoDone := Logo.(status := Completed, hiredFreelancerId := Some(2))

  method ScenarioSignUpAndPost() returns (app: App)
    ensures fresh(app) && app.Valid()
    ensures app.users == [Lin, Ada] && app.projects == [Logo] && app.bids == [] && app.reviews == []
  {
    app := new App();
    var ok := app.SignUp(1, "Ada", Some(Client));
    assert ok == Pass;
    assert app.users == [Ada];
    ok := app.SignUp(2, "Lin", Some(Freelancer));
    assert ok == Pass;
    assert app.users == [Lin, Ada];
    ok := app.SignUp(3, "", Some(Freelancer));
    assert ok == Fail(MissingField);
    ok := app.PostProject(Some(2), 10, "Logo", "A logo", 500.0, "svg");
    assert ok == Fail(WrongRole);
    assert app.projects == [];
    ok := app.PostProject(Some(1), 10, "Logo", "A logo", 500.0, "svg");
    assert ok == Pass;
  }

  method ScenarioBid(app: App)
    requires app.Valid()
    requires app.users == [Lin, Ada] && app.projects == [Logo] && app.bids == [] && app.reviews == []
    modifies app
    ensures app.Valid()
    ensures app.users == [Lin, Ada] && app.projects == [Logo] && app.bids == [LinsBid] && app.reviews == []
  {
    assert FindProject(app.projects, 10) == Some(Logo);
    assert FindUser(app.users, 1) == Some(Ada);
    assert FindUser(app.users, 2) == Some(Lin);
    var ok := app.Hire(Some(1), 10, 2);
    assert ok == Fail(NoSuchBid);
    ok := app.SubmitBid(Some(2), 10, 20, 450.0, "I can do it");
    assert ok == Pass;
    assert app.bids == [LinsBid];
    assert [LinsBid][1..] == [];
    assert Filter([LinsBid], OnProject, 10) == [LinsBid] + Filter([], OnProject, 10);
    assert BidsFor(app.bids, 10) == [LinsBid];
    ok := app.SubmitBid(Some(2), 10, 21, 400.0, "Cheaper");
    assert ok == Fail(AlreadyBid);
  }

  method ScenarioHire(app: App)
    requires app.Valid()
    requires app.users == [Lin, Ada] && app.projects == [Logo] && app.bids == [LinsBid] && app.reviews == []
    modifies app
    ensures app.Valid()
    ensures app.users == [Lin, Ada] && app.projects == [LogoHired] && app.bids == [LinsBid] && app.reviews == []
  {
    assert FindProject(app.projects, 10) == Some(Logo);
    assert FindUser(app.users, 1) == Some(Ada);
    assert FindUser(app.users, 2) == Some(Lin);
    assert [LinsBid][1..] == [];
    assert Filter([LinsBid], OnProject, 10) == [LinsBid] + Filter([], OnProject, 10);
    assert BidsFor(app.bids, 10) == [LinsBid];
    var ok := app.Hire(Some(2), 10, 2);
    assert ok == Fail(WrongRole);
    ok := app.Hire(Some(1), 10, 2);
    assert ok == Pass;
    assert app.projects == [LogoHired];
    assert FindProject(app.projects, 10) == Some(LogoHired);
    ok := app.Hire(Some(1), 10, 2);
    assert ok == Fail(WrongStatus);
  }

  method ScenarioComplete(app: App)
    requires app.Valid()
    requires app.users == [Lin, Ada] && app.projects == [LogoHired] && app.bids == [LinsBid] && app.reviews == []
    modifies app
    ensures app.Valid()
    ensures app.users == [Lin, Ada] && app.projects == [LogoDone] && app.reviews == []
  {
    assert FindProject(app.projects, 10) == Some(LogoHired);
    assert FindUser(app.users, 1) == Some(Ada);
    assert FindUser(app.users, 2) == Some(Lin);
    var ok := app.Complete(Some(1), 10);
    assert ok == Pass;
    assert app.projects == [LogoDone];
    assert FindProject(app.projects, 10) == Some(LogoDone);
    ok := app.SubmitBid(Some(2), 10, 22, 300.0, "Late");
    assert ok == Fail(WrongStatus);
  }

  method ScenarioReview(app: App)
    requires app.Valid()
    requires app.users == [Lin, Ada] && app.projects == [LogoDone] && app.reviews == []
    modifies app
    ensures app.Valid()
    ensures app.users == [Lin.(rating := Some(4.0)), Ada]
  {
    assert FindProject(app.projects, 10) == Some(LogoDone);
    assert FindUser(app.users, 1) == Some(Ada);
    assert FindUser(app.users, 2) == Some(Lin);
    var ok := app.SubmitReview(Some(1), 10, 30, 0, "Great");
    assert ok == Fail(NoRating);
    ok := app.SubmitReview(Some(1), 10, 30, 4, "Great");
    assert ok == Pass;
    var r := Review(30, 10, 2, 4, "Great");
    assert app.reviews == [r];
    assert [r][1..] == [];
    assert About(r, 2);
    assert ReviewsOf([r], 2) == [r];
    assert SumRatings([r]) == 4;
    assert Reputation([r], 2) == 4.0;
    assert [Lin, Ada][1..] == [Ada] && [Ada][1..] == [];
    assert MarkRated([Ada], 2, 4.0) == [Ada];
  }

  /** The stages in order: a client and a freelancer go through the whole
      lifecycle and the freelancer ends with the one rating given. */
  method Scenario()
  {
    var app := ScenarioSignUpAndPost();
    ScenarioBid(app);
    ScenarioHire(app);
    ScenarioComplete(app);
    ScenarioReview(app);
    assert app.users[0].rating == Some(4.0);
  }
}
