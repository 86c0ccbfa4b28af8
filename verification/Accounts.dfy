/** Users and the subscriptions they depend on. */
module Accounts {
  import opened Wrappers
  import opened Subscriptions

  datatype Role = JOB_SEEKER | EMPLOYER | ADMIN | SUPER_ADMIN

  datatype User = User(role: Role, companyId: Option<string>, isPremium: bool)

  /** The users, the companies' subscriptions (one a company) and the job seekers' subscriptions (one a user). */
  datatype Db = Db(
    users: map<string, User>,
    companySubs: map<string, Subscription>,
    userSubs: map<string, Subscription>)

  function Lookup<V>(m: map<string, V>, key: string): Option<V> {
    if key in m then Some(m[key]) else None
  }

  function CompanySub(db: Db, user: User): Option<Subscription> {
    if user.companyId.Some? then Lookup(db.companySubs, user.companyId.value) else None
  }

  /** What a payment is for: the company's plan or the job seeker's own. */
  datatype Category = EMPLOYER_PLAN | SEEKER_PREMIUM

  function SubOf(db: Db, category: Category, owner: string): Option<Subscription> {
    match category
    case EMPLOYER_PLAN => Lookup(db.companySubs, owner)
    case SEEKER_PREMIUM => Lookup(db.userSubs, owner)
  }

  function WithSub(db: Db, category: Category, owner: string, sub: Subscription): Db {
    match category
    case EMPLOYER_PLAN => db.(companySubs := db.companySubs[owner := sub])
    case SEEKER_PREMIUM => db.(userSubs := db.userSubs[owner := sub])
  }

  function SetPremium(db: Db, userId: string, isPremium: bool): Db {
    if userId in db.users then db.(users := db.users[userId := db.users[userId].(isPremium := isPremium)]) else db
  }

  /** The benefits of one payment: the owner's validity is stacked and the payer becomes premium. */
  function GrantTo(db: Db, category: Category, owner: string, payer: string, planId: string, term: Term, now: int): Db {
    SetPremium(WithSub(db, category, owner, Granted(SubOf(db, category, owner), planId, term, now)), payer, true)
  }
}
