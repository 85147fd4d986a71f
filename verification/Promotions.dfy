/** Environments, promotions and approvals (internal/environments/types.go). */
module Promotions {
  import opened Option
  import opened Windows

  type UserId = nat
  type EnvId = nat
  type PromotionId = nat
  type DeploymentId = nat

  // Project roles (internal/authz/authz.go); NoRole is the empty role.
  datatype Role = NoRole | Viewer | Deployer | Admin

  datatype Status =
    | Pending | Waiting | Approved | Deploying
    | Success | Failed | Rejected | Cancelled | Expired

  predicate IsActive(s: Status) {
    s.Pending? || s.Waiting? || s.Approved? || s.Deploying?
  }

  // The states in which approvals have been satisfied.
  predicate PastQuorum(s: Status) {
    s.Waiting? || s.Approved? || s.Deploying? || s.Success?
  }

  datatype Reviewer = ByUser(user: Option<UserId>) | ByRole(role: Role)

  // The part of the stored policy that decides promotions. waitMinutes is within 0..43200 once validated.
  datatype Environment = Environment(
    id: EnvId,
    production: bool,
    reviewers: seq<Reviewer>,
    required: int,
    allowSelf: bool,
    waitMinutes: int,
    windows: seq<Window>)

  datatype Verdict = Approve | Reject

  datatype Approval = Approval(user: UserId, verdict: Verdict, self: bool, role: Role, at: int)

  datatype Promotion = Promotion(
    id: PromotionId,
    env: EnvId,
    sha: string,
    requestedBy: Option<UserId>,
    key: string,
    status: Status,
    required: int,
    quorumAt: Option<int>,
    notBefore: Option<int>,
    expiresAt: int,
    createdAt: int,
    startedAt: Option<int>,
    finishedAt: Option<int>,
    source: Option<DeploymentId>,
    deployment: Option<DeploymentId>,
    approvals: seq<Approval>)

  datatype Actor = Actor(user: UserId, role: Role)
}
