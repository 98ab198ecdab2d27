/**
 * The four kinds of record the marketplace keeps (users, projects, bids and
 * reviews), the lookup `find` by id, and the two "map over the projects,
 * change the one with this id" updates that hiring and completion perform.
 */
module Records {

  datatype Option<T> = None | Some(value: T)

  /** Ids are the millisecond timestamps the application hands out. */
  type Id = nat

  datatype Role = Client | Freelancer

  datatype Status = Open | InProgress | Completed

  /** The avatar URL is presentation only and is not kept. */
  datatype User = User(
    id: Id,
    name: string,
    role: Role,
    title: Option<string>,
    rating: Option<real>)

  datatype Project = Project(
    id: Id,
    title: string,
    description: string,
    budget: real,
    skills: seq<string>,
    clientId: Id,
    status: Status,
    hiredFreelancerId: Option<Id>)

  datatype Bid = Bid(
    id: Id,
    projectId: Id,
    freelancerId: Id,
    bidAmount: real,
    proposalText: string)

  datatype Review = Review(
    id: Id,
    projectId: Id,
    freelancerId: Id,
    rating: int,
    comment: string)

  /** Position of a status in the lifecycle Open, In Progress, Completed. */
  function Rank(s: Status): nat
  {
    match s
    case Open => 0
    case InProgress => 1
    case Completed => 2
  }

  // ---------------------------------------------------------------------------
  // Id freshness and uniqueness

  ghost predicate DistinctUserIds(us: seq<User>)
  {
    forall i, j :: 0 <= i < j < |us| ==> us[i].id != us[j].id
  }

  ghost predicate DistinctProjectIds(ps: seq<Project>)
  {
    forall i, j :: 0 <= i < j < |ps| ==> ps[i].id != ps[j].id
  }

  ghost predicate DistinctBidIds(bs: seq<Bid>)
  {
    forall i, j :: 0 <= i < j < |bs| ==> bs[i].id != bs[j].id
  }

  ghost predicate DistinctReviewIds(rs: seq<Review>)
  {
    forall i, j :: 0 <= i < j < |rs| ==> rs[i].id != rs[j].id
  }

  ghost predicate FreshUserId(us: seq<User>, id: Id)
  {
    forall u :: u in us ==> u.id != id
  }

  ghost predicate FreshProjectId(ps: seq<Project>, id: Id)
  {
    forall p :: p in ps ==> p.id != id
  }

  ghost predicate FreshBidId(bs: seq<Bid>, id: Id)
  {
    forall b :: b in bs ==> b.id != id
  }

  ghost predicate FreshReviewId(rs: seq<Review>, id: Id)
  {
    forall r :: r in rs ==> r.id != id
  }

  // ---------------------------------------------------------------------------
  // Lookup by id: the first record whose id matches, as `Array.prototype.find`

  function FindUser(us: seq<User>, id: Id): (r: Option<User>)
    ensures r.Some? ==> r.value in us && r.value.id == id
    ensures r.None? ==> FreshUserId(us, id)
  {
    if us == [] then None
    else if us[0].id == id then Some(us[0])
    else FindUser(us[1..], id)
  }

  function FindProject(ps: seq<Project>, id: Id): (r: Option<Project>)
    ensures r.Some? ==> r.value in ps && r.value.id == id
    ensures r.None? ==> FreshProjectId(ps, id)
  {
    if ps == [] then None
    else if ps[0].id == id then Some(ps[0])
    else FindProject(ps[1..], id)
  }

  /** With unique ids, `find` returns the one record that carries the id. */
  lemma {:induction false} FindUserOf(us: seq<User>, u: User)
    requires DistinctUserIds(us)
    requires u in us
    ensures FindUser(us, u.id) == Some(u)
  {
    if us[0] != u {
      assert us[0].id != u.id by {
        var k :| 0 <= k < |us| && us[k] == u;
        assert k != 0;
      }
      assert u in us[1..] by {
        var k :| 0 <= k < |us| && us[k] == u;
        assert us[1..][k - 1] == u;
      }
      FindUserOf(us[1..], u);
    }
  }

  lemma {:induction false} FindProjectOf(ps: seq<Project>, p: Project)
    requires DistinctProjectIds(ps)
    requires p in ps
    ensures FindProject(ps, p.id) == Some(p)
  {
    if ps[0] != p {
      assert ps[0].id != p.id by {
        var k :| 0 <= k < |ps| && ps[k] == p;
        assert k != 0;
      }
      assert p in ps[1..] by {
        var k :| 0 <= k < |ps| && ps[k] == p;
        assert ps[1..][k - 1] == p;
      }
      FindProjectOf(ps[1..], p);
    }
  }

  // ---------------------------------------------------------------------------
  // Rewriting every project record that carries a given id, in place in the
  // list

  /** What hiring does to one project record. */
  function HireEdit(p: Project, freelancerId: Id): Project
  {
    p.(status := InProgress, hiredFreelancerId := Some(freelancerId))
  }

  /** What completion does to one project record. */
  function CompleteEdit(p: Project): Project
  {
    p.(status := Completed)
  }

  function MarkHired(ps: seq<Project>, projectId: Id, freelancerId: Id): seq<Project>
  {
    if ps == [] then []
    else [if ps[0].id == projectId then HireEdit(ps[0], freelancerId) else ps[0]]
         + MarkHired(ps[1..], projectId, freelancerId)
  }

  function MarkCompleted(ps: seq<Project>, projectId: Id): seq<Project>
  {
    if ps == [] then []
    else [if ps[0].id == projectId then CompleteEdit(ps[0]) else ps[0]]
         + MarkCompleted(ps[1..], projectId)
  }

  /** Hiring keeps the list's length and order and rewrites exactly the
      records with the given id: status In Progress, the freelancer recorded,
      every other field and every other project untouched. */
  lemma {:induction false} MarkHiredAt(ps: seq<Project>, projectId: Id, freelancerId: Id, i: nat)
    requires i < |ps|
    ensures |MarkHired(ps, projectId, freelancerId)| == |ps|
    ensures ps[i].id == projectId ==>
      MarkHired(ps, projectId, freelancerId)[i]
        == ps[i].(status := InProgress, hiredFreelancerId := Some(freelancerId))
    ensures ps[i].id != projectId ==> MarkHired(ps, projectId, freelancerId)[i] == ps[i]
  {
    if i > 0 {
      MarkHiredAt(ps[1..], projectId, freelancerId, i - 1);
    } else if |ps| > 1 {
      MarkHiredAt(ps[1..], projectId, freelancerId, 0);
    }
  }

  /** Completion keeps the list's length and order and sets the status of
      exactly the records with the given id to Completed; the hired
      freelancer and every other project stay as they were. */
  lemma {:induction false} MarkCompletedAt(ps: seq<Project>, projectId: Id, i: nat)
    requires i < |ps|
    ensures |MarkCompleted(ps, projectId)| == |ps|
    ensures ps[i].id == projectId ==> MarkCompleted(ps, projectId)[i] == ps[i].(status := Completed)
    ensures ps[i].id != projectId ==> MarkCompleted(ps, projectId)[i] == ps[i]
  {
    if i > 0 {
      MarkCompletedAt(ps[1..], projectId, i - 1);
    } else if |ps| > 1 {
      MarkCompletedAt(ps[1..], projectId, 0);
    }
  }

  /** Looking a project up after hiring finds the hired version of it when
      it is the hired project, and the unchanged record otherwise. */
  lemma {:induction false} FindAfterMarkHired(ps: seq<Project>, projectId: Id, freelancerId: Id, id: Id)
    ensures FindProject(MarkHired(ps, projectId, freelancerId), id)
      == match FindProject(ps, id)
         case None => None
         case Some(p) => Some(if id == projectId then HireEdit(p, freelancerId) else p)
  {
    if ps != [] {
      FindAfterMarkHired(ps[1..], projectId, freelancerId, id);
    }
  }

  lemma {:induction false} FindAfterMarkCompleted(ps: seq<Project>, projectId: Id, id: Id)
    ensures FindProject(MarkCompleted(ps, projectId), id)
      == match FindProject(ps, id)
         case None => None
         case Some(p) => Some(if id == projectId then CompleteEdit(p) else p)
  {
    if ps != [] {
      FindAfterMarkCompleted(ps[1..], projectId, id);
    }
  }

  /** Both rewrites keep every record's id, so unique ids stay unique. */
  lemma MarkHiredKeepsIds(ps: seq<Project>, projectId: Id, freelancerId: Id)
    ensures |MarkHired(ps, projectId, freelancerId)| == |ps|
    ensures forall i :: 0 <= i < |ps| ==> MarkHired(ps, projectId, freelancerId)[i].id == ps[i].id
  {
    if ps != [] {
      MarkHiredAt(ps, projectId, freelancerId, 0);
    }
    forall i | 0 <= i < |ps|
      ensures MarkHired(ps, projectId, freelancerId)[i].id == ps[i].id
    {
      MarkHiredAt(ps, projectId, freelancerId, i);
    }
  }

  lemma MarkCompletedKeepsIds(ps: seq<Project>, projectId: Id)
    ensures |MarkCompleted(ps, projectId)| == |ps|
    ensures forall i :: 0 <= i < |ps| ==> MarkCompleted(ps, projectId)[i].id == ps[i].id
  {
    if ps != [] {
      MarkCompletedAt(ps, projectId, 0);
    }
    forall i | 0 <= i < |ps|
      ensures MarkCompleted(ps, projectId)[i].id == ps[i].id
    {
      MarkCompletedAt(ps, projectId, i);
    }
  }

  // ---------------------------------------------------------------------------
  // Setting the rating of every user record that carries a given id

  function MarkRated(us: seq<User>, freelancerId: Id, rating: real): seq<User>
  {
    if us == [] then []
    else [if us[0].id == freelancerId then us[0].(rating := Some(rating)) else us[0]]
         + MarkRated(us[1..], freelancerId, rating)
  }

  /** Re-rating keeps the list's length and order, gives exactly the users
      with the given id the new rating and leaves everything else alone. */
  lemma {:induction false} MarkRatedAt(us: seq<User>, freelancerId: Id, rating: real, i: nat)
    requires i < |us|
    ensures |MarkRated(us, freelancerId, rating)| == |us|
    ensures us[i].id == freelancerId ==>
      MarkRated(us, freelancerId, rating)[i] == us[i].(rating := Some(rating))
    ensures us[i].id != freelancerId ==> MarkRated(us, freelancerId, rating)[i] == us[i]
  {
    if i > 0 {
      MarkRatedAt(us[1..], freelancerId, rating, i - 1);
    } else if |us| > 1 {
      MarkRatedAt(us[1..], freelancerId, rating, 0);
    }
  }

  lemma MarkRatedKeepsIds(us: seq<User>, freelancerId: Id, rating: real)
    ensures |MarkRated(us, freelancerId, rating)| == |us|
    ensures forall i :: 0 <= i < |us| ==> MarkRated(us, freelancerId, rating)[i].id == us[i].id
  {
    if us != [] {
      MarkRatedAt(us, freelancerId, rating, 0);
    }
    forall i | 0 <= i < |us|
      ensures MarkRated(us, freelancerId, rating)[i].id == us[i].id
    {
      MarkRatedAt(us, freelancerId, rating, i);
    }
  }

  /** Looking a user up after re-rating finds the re-rated record for the
      rated id and the unchanged record for any other id. */
  lemma {:induction false} FindAfterMarkRated(us: seq<User>, freelancerId: Id, rating: real, id: Id)
    ensures FindUser(MarkRated(us, freelancerId, rating), id)
      == match FindUser(us, id)
         case None => None
         case Some(u) => Some(if id == freelancerId then u.(rating := Some(rating)) else u)
  {
    if us != [] {
      FindAfterMarkRated(us[1..], freelancerId, rating, id);
    }
  }

  // ---------------------------------------------------------------------------
  // Prepending a record, as `[newRecord, ...previous]`

  lemma FindUserPrepend(u: User, us: seq<User>, id: Id)
    ensures FindUser([u] + us, id) == if u.id == id then Some(u) else FindUser(us, id)
  {
    assert ([u] + us)[1..] == us;
  }

  lemma FindProjectPrepend(p: Project, ps: seq<Project>, id: Id)
    ensures FindProject([p] + ps, id) == if p.id == id then Some(p) else FindProject(ps, id)
  {
    assert ([p] + ps)[1..] == ps;
  }
}
