/** The user-table rules of the authentication routes: password login by
    email or username, the get-or-create step of an OAuth login, and
    registration. The users table is a sequence of rows in which "the
    first match" is the first row, in sequence order, that satisfies the
    filter. Password hashing and checking are not modelled: a stored hash
    is an input, and checking a password against one is a predicate
    passed in. */
module Auth {
  import opened Strings

  datatype Provider = EmailProvider | Google | Github

  datatype Role = UserRole | AdminRole

  /** One row of the users table. Row ids and timestamps are left out. */
  datatype User = User(
    username: string,
    name: string,
    email: string,
    password: Option<string>,
    provider: Provider,
    providerId: Option<string>,
    role: Role)

  /** The filters the routes put on the table. */
  datatype Query =
    | ByLogin(identifier: string)
    | ByIdentity(provider: Provider, providerId: string)
    | ByEmail(email: string)
    | ByUsername(username: string)

  predicate Matches(u: User, q: Query)
  {
    match q
    case ByLogin(id) => u.email == id || u.username == id
    case ByIdentity(p, pid) => u.providerId == Some(pid) && u.provider == p
    case ByEmail(e) => u.email == e
    case ByUsername(n) => u.username == n
  }

  /** `query.filter(q).first()`: the index of the first matching row. */
  function First(users: seq<User>, q: Query): (r: Option<nat>)
    ensures r.None? <==> forall i :: 0 <= i < |users| ==> !Matches(users[i], q)
    ensures r.Some? ==> r.value < |users| && Matches(users[r.value], q)
                        && forall j :: 0 <= j < r.value ==> !Matches(users[j], q)
  {
    if users == [] then None
    else if Matches(users[0], q) then Some(0)
    else
      assert forall i :: 0 < i < |users| ==> users[i] == users[1..][i - 1];
      match First(users[1..], q)
      case None => None
      case Some(i) => Some(i + 1)
  }

  // ---- authenticate_user

  /** A stored password counts only when it is present and non-empty. */
  predicate HasPassword(u: User)
  {
    u.password.Some? && u.password.value != ""
  }

  /** `authenticate_user`: the first row whose email or username is the
      identifier, provided it has a password that `verify` accepts. */
  function Authenticate(users: seq<User>, identifier: string, password: string,
                        verify: (string, string) -> bool): (r: Option<User>)
    ensures First(users, ByLogin(identifier)).None? ==> r.None?
    ensures First(users, ByLogin(identifier)).Some? ==>
      var u := users[First(users, ByLogin(identifier)).value];
      r == if HasPassword(u) && verify(password, u.password.value) then Some(u) else None
    ensures r.Some? ==> r.value in users && Matches(r.value, ByLogin(identifier))
                        && HasPassword(r.value) && verify(password, r.value.password.value)
  {
    match First(users, ByLogin(identifier))
    case None => None
    case Some(i) =>
      var u := users[i];
      if !HasPassword(u) then None
      else if !verify(password, u.password.value) then None
      else Some(u)
  }

  // ---- the generated username

  /** The text before the first `@`, as `email.split('@')[0]` gives it. */
  function BaseUsername(email: string): string
  {
    BeforeFirst(email, '@')
  }

  /** The candidates the loop tries in turn: the base, then the base
      followed by 1, 2, 3, ... */
  function Candidate(base: string, k: nat): (c: string)
    ensures base <= c
    ensures k == 0 <==> c == base
  {
    if k == 0 then base else base + NatToString(k)
  }

  /** Different counters give different candidates. */
  lemma CandidateInjective(base: string, a: nat, b: nat)
    requires Candidate(base, a) == Candidate(base, b)
    ensures a == b
  {
    if a != 0 && b != 0 {
      assert (base + NatToString(a))[|base|..] == NatToString(a);
      assert (base + NatToString(b))[|base|..] == NatToString(b);
      NatToStringInjective(a, b);
    }
  }

  /** The first `n` candidates, as a set. */
  function Tried(base: string, n: nat): set<string>
  {
    if n == 0 then {} else Tried(base, n - 1) + {Candidate(base, n - 1)}
  }

  lemma {:induction false} TriedMembers(base: string, n: nat, c: string)
    ensures c in Tried(base, n) <==> exists k :: 0 <= k < n && c == Candidate(base, k)
  {
    if n > 0 {
      TriedMembers(base, n - 1, c);
      if c == Candidate(base, n - 1) {
        assert 0 <= n - 1 < n && c == Candidate(base, n - 1);
      } else if exists k :: 0 <= k < n && c == Candidate(base, k) {
        var k :| 0 <= k < n && c == Candidate(base, k);
        assert k < n - 1;
      }
    }
  }

  /** The first `n` candidates are `n` different names. */
  lemma {:induction false} TriedSize(base: string, n: nat)
    ensures |Tried(base, n)| == n
  {
    if n > 0 {
      TriedSize(base, n - 1);
      if Candidate(base, n - 1) in Tried(base, n - 1) {
        TriedMembers(base, n - 1, Candidate(base, n - 1));
        var k :| 0 <= k < n - 1 && Candidate(base, n - 1) == Candidate(base, k);
        CandidateInjective(base, n - 1, k);
      }
    }
  }

  /** The usernames in the table. */
  function Usernames(users: seq<User>): (names: set<string>)
    ensures forall n :: n in names <==> Taken(users, n)
  {
    set i | 0 <= i < |users| :: users[i].username
  }

  lemma {:induction false} SubsetSize(a: set<string>, b: set<string>)
    requires a <= b
    ensures |a| <= |b|
  {
    if a != {} {
      var x :| x in a;
      SubsetSize(a - {x}, b - {x});
    }
  }

  /** Some row already has this username. */
  predicate Taken(users: seq<User>, name: string)
  {
    First(users, ByUsername(name)).Some?
  }

  /** `name` is the `n`-th candidate and the first one nobody uses. */
  predicate FirstFree(users: seq<User>, base: string, name: string, n: nat)
  {
    name == Candidate(base, n) && !Taken(users, name)
    && forall k :: 0 <= k < n ==> Taken(users, Candidate(base, k))
  }

  /** One more taken candidate: the first `c` candidates are then `c`
      different names of the table. */
  lemma TriedStep(users: seq<User>, base: string, c: nat)
    requires 0 < c && Tried(base, c - 1) <= Usernames(users)
    requires Taken(users, Candidate(base, c - 1))
    ensures Tried(base, c) <= Usernames(users)
    ensures |Tried(base, c)| == c <= |Usernames(users)|
  {
    TriedSize(base, c);
    SubsetSize(Tried(base, c), Usernames(users));
  }

  /** The username loop: try the candidates in order until one is free.
      It ends because every candidate it passes over is a different name
      already in the table. */
  method GenerateUsername(users: seq<User>, email: string) returns (username: string, ghost n: nat)
    ensures FirstFree(users, BaseUsername(email), username, n)
    ensures !Taken(users, username) && BaseUsername(email) <= username
    ensures username == BaseUsername(email) <==> !Taken(users, BaseUsername(email))
  {
    username := BaseUsername(email);
    var base := username;
    var counter := 1;
    while Taken(users, username)
      invariant counter >= 1
      invariant username == Candidate(base, counter - 1)
      invariant Tried(base, counter - 1) <= Usernames(users)
      invariant counter - 1 <= |Usernames(users)|
      invariant forall k :: 0 <= k < counter - 1 ==> Taken(users, Candidate(base, k))
      decreases |Usernames(users)| - (counter - 1)
    {
      TriedStep(users, base, counter);
      ghost var prior := counter;
      username := base + NatToString(counter);
      counter := counter + 1;
      assert username == Candidate(base, prior);
      assert Taken(users, Candidate(base, prior - 1));
      assert forall k :: 0 <= k < counter - 1 ==> Taken(users, Candidate(base, k)) by {
        forall k | 0 <= k < counter - 1 ensures Taken(users, Candidate(base, k)) {
          if k < prior - 1 { } else { assert k == prior - 1; }
        }
      }
    }
    n := counter - 1;
  }

  /** The username a created OAuth user gets: the one supplied if it is
      non-empty, with no uniqueness check, and otherwise the first free
      candidate. */
  ghost predicate ChosenUsername(users: seq<User>, email: string, username: Option<string>, chosen: string)
  {
    if username.Some? && username.value != "" then chosen == username.value
    else exists n: nat :: FirstFree(users, BaseUsername(email), chosen, n)
  }

  // ---- get_or_create_oauth_user

  /** The table after an OAuth login and the row it returns. `chosen` is
      the username a new row receives; it is used only when one is made. */
  function OAuthOutcome(users: seq<User>, email: string, name: string, provider: Provider,
                        providerId: string, chosen: string): (r: (seq<User>, User))
    ensures First(users, ByIdentity(provider, providerId)).Some? ==>
      r == (users, users[First(users, ByIdentity(provider, providerId)).value])
    ensures First(users, ByIdentity(provider, providerId)).None? && First(users, ByEmail(email)).Some? ==>
      var i := First(users, ByEmail(email)).value;
      |r.0| == |users| && r.1 == r.0[i] && r.0[i] == users[i].(provider := provider, providerId := Some(providerId))
      && forall j :: 0 <= j < |users| && j != i ==> r.0[j] == users[j]
    ensures First(users, ByIdentity(provider, providerId)).None? && First(users, ByEmail(email)).None? ==>
      r.0 == users + [r.1] && r.1 == User(chosen, name, email, None, provider, Some(providerId), UserRole)
    ensures r.1.provider == provider && r.1.providerId == Some(providerId)
    ensures First(r.0, ByIdentity(provider, providerId)).Some?
            && r.0[First(r.0, ByIdentity(provider, providerId)).value] == r.1
  {
    match First(users, ByIdentity(provider, providerId))
    case Some(i) => (users, users[i])
    case None =>
      match First(users, ByEmail(email))
      case Some(i) =>
        var linked := users[i].(provider := provider, providerId := Some(providerId));
        var updated := users[i := linked];
        assert forall j :: 0 <= j < i ==> updated[j] == users[j];
        assert Matches(updated[i], ByIdentity(provider, providerId));
        (updated, linked)
      case None =>
        var u := User(chosen, name, email, None, provider, Some(providerId), UserRole);
        assert forall j :: 0 <= j < |users| ==> (users + [u])[j] == users[j];
        assert Matches((users + [u])[|users|], ByIdentity(provider, providerId));
        (users + [u], u)
  }

  // ---- register

  datatype Registration = Rejected(detail: string) | Registered(user: User)

  const EmailTaken := "Email already registered"

  /** `register`: refused when the email is in the table; otherwise one
      email-provider row is appended whose username is the email. */
  function RegisterOutcome(users: seq<User>, email: string, name: string, hashed: string): (r: (seq<User>, Registration))
    ensures r.1.Rejected? <==> First(users, ByEmail(email)).Some?
    ensures r.1.Rejected? ==> r.0 == users && r.1.detail == EmailTaken
    ensures r.1.Registered? ==>
      r.0 == users + [r.1.user] && r.1.user == User(email, name, email, Some(hashed), EmailProvider, None, UserRole)
  {
    if First(users, ByEmail(email)).Some? then (users, Rejected(EmailTaken))
    else
      var u := User(email, name, email, Some(hashed), EmailProvider, None, UserRole);
      (users + [u], Registered(u))
  }

  // ---- table invariants

  /** No two rows share an email. */
  predicate UniqueEmails(users: seq<User>)
  {
    forall i, j :: 0 <= i < j < |users| ==> users[i].email != users[j].email
  }

  /** No two rows share a username. */
  predicate UniqueUsernames(users: seq<User>)
  {
    forall i, j :: 0 <= i < j < |users| ==> users[i].username != users[j].username
  }

  /** No two rows share an OAuth identity. */
  predicate UniqueIdentities(users: seq<User>)
  {
    forall i, j :: 0 <= i < j < |users| && users[i].providerId.Some? ==>
      !Matches(users[j], ByIdentity(users[i].provider, users[i].providerId.value))
  }

  lemma OAuthKeepsUniqueEmails(users: seq<User>, email: string, name: string, provider: Provider,
                               providerId: string, chosen: string)
    requires UniqueEmails(users)
    ensures UniqueEmails(OAuthOutcome(users, email, name, provider, providerId, chosen).0)
  {
    var r := OAuthOutcome(users, email, name, provider, providerId, chosen);
    if First(users, ByIdentity(provider, providerId)).None? && First(users, ByEmail(email)).Some? {
      assert forall j :: 0 <= j < |users| ==> r.0[j].email == users[j].email;
    }
  }

  lemma OAuthKeepsUniqueIdentities(users: seq<User>, email: string, name: string, provider: Provider,
                                   providerId: string, chosen: string)
    requires UniqueIdentities(users)
    ensures UniqueIdentities(OAuthOutcome(users, email, name, provider, providerId, chosen).0)
  {
    var r := OAuthOutcome(users, email, name, provider, providerId, chosen);
    if First(users, ByIdentity(provider, providerId)).None? {
      if First(users, ByEmail(email)).Some? {
        var k := First(users, ByEmail(email)).value;
        forall i, j | 0 <= i < j < |r.0| && r.0[i].providerId.Some?
          ensures !Matches(r.0[j], ByIdentity(r.0[i].provider, r.0[i].providerId.value))
        {
          if i != k && j != k {
            assert r.0[i] == users[i] && r.0[j] == users[j];
          } else if i == k {
            assert r.0[j] == users[j];
          } else {
            assert r.0[i] == users[i];
          }
        }
      } else {
        forall i, j | 0 <= i < j < |r.0| && r.0[i].providerId.Some?
          ensures !Matches(r.0[j], ByIdentity(r.0[i].provider, r.0[i].providerId.value))
        {
          if j < |users| {
            assert r.0[i] == users[i] && r.0[j] == users[j];
          } else {
            assert r.0[i] == users[i];
          }
        }
      }
    }
  }

  /** A generated username keeps usernames unique. */
  lemma OAuthGeneratedKeepsUniqueUsernames(users: seq<User>, email: string, name: string, provider: Provider,
                                           providerId: string, chosen: string)
    requires UniqueUsernames(users) && ChosenUsername(users, email, None, chosen)
    ensures UniqueUsernames(OAuthOutcome(users, email, name, provider, providerId, chosen).0)
  {
    var r := OAuthOutcome(users, email, name, provider, providerId, chosen);
    if First(users, ByIdentity(provider, providerId)).None? {
      if First(users, ByEmail(email)).Some? {
        assert forall j :: 0 <= j < |users| ==> r.0[j].username == users[j].username;
      } else {
        assert forall j :: 0 <= j < |users| ==> r.0[j] == users[j];
      }
    }
  }

  /** A caller-supplied username is not checked: an OAuth login that
      supplies a name already in use gives two rows that name. */
  lemma SuppliedUsernameUnchecked()
    ensures var ada := User("ada", "Ada", "ada@example.org", Some("h"), EmailProvider, None, UserRole);
      UniqueUsernames([ada])
      && !UniqueUsernames(OAuthOutcome([ada], "bob@example.org", "Bob", Github, "42", "ada").0)
  {
    var ada := User("ada", "Ada", "ada@example.org", Some("h"), EmailProvider, None, UserRole);
    assert !Matches(ada, ByIdentity(Github, "42"));
    assert !Matches(ada, ByEmail("bob@example.org"));
    var r := OAuthOutcome([ada], "bob@example.org", "Bob", Github, "42", "ada");
    assert r.0[0].username == r.0[1].username;
  }

  /** A second OAuth login with the same identity finds the row the first
      one returned and changes nothing. */
  lemma OAuthIdempotent(users: seq<User>, email: string, name: string, provider: Provider,
                        providerId: string, chosen: string, email': string, name': string, chosen': string)
    ensures var r := OAuthOutcome(users, email, name, provider, providerId, chosen);
      OAuthOutcome(r.0, email', name', provider, providerId, chosen') == r
  {
    var r := OAuthOutcome(users, email, name, provider, providerId, chosen);
    var i := First(r.0, ByIdentity(provider, providerId)).value;
    assert r.0[i] == r.1;
  }

  lemma RegisterKeepsUniqueEmails(users: seq<User>, email: string, name: string, hashed: string)
    requires UniqueEmails(users)
    ensures UniqueEmails(RegisterOutcome(users, email, name, hashed).0)
  {
    var r := RegisterOutcome(users, email, name, hashed);
    if r.1.Registered? {
      assert forall j :: 0 <= j < |users| ==> r.0[j] == users[j];
    }
  }

  lemma RegisterKeepsUniqueIdentities(users: seq<User>, email: string, name: string, hashed: string)
    requires UniqueIdentities(users)
    ensures UniqueIdentities(RegisterOutcome(users, email, name, hashed).0)
  {
    var r := RegisterOutcome(users, email, name, hashed);
    if r.1.Registered? {
      assert forall j :: 0 <= j < |users| ==> r.0[j] == users[j];
    }
  }

  /** A registration followed by a login with the same email and password
      returns the new row, as long as no earlier row has that email as its
      username and the checker accepts the password against its hash. */
  lemma RegisterThenAuthenticate(users: seq<User>, email: string, name: string, password: string,
                                 hashed: string, verify: (string, string) -> bool)
    requires First(users, ByEmail(email)).None? && First(users, ByUsername(email)).None?
    requires hashed != "" && verify(password, hashed)
    ensures var r := RegisterOutcome(users, email, name, hashed);
      r.1.Registered? && Authenticate(r.0, email, password, verify) == Some(r.1.user)
  {
    var r := RegisterOutcome(users, email, name, hashed);
    assert forall j :: 0 <= j < |users| ==> r.0[j] == users[j] && !Matches(r.0[j], ByLogin(email));
    assert Matches(r.0[|users|], ByLogin(email));
  }

  /** A row created by an OAuth login has no password, so a password login
      that reaches it first fails whatever the password. */
  lemma OAuthUserCannotLogIn(users: seq<User>, email: string, name: string, provider: Provider,
                             providerId: string, chosen: string, password: string,
                             verify: (string, string) -> bool)
    requires First(users, ByIdentity(provider, providerId)).None? && First(users, ByEmail(email)).None?
    requires First(users, ByUsername(email)).None?
    ensures Authenticate(OAuthOutcome(users, email, name, provider, providerId, chosen).0, email, password, verify).None?
  {
    var r := OAuthOutcome(users, email, name, provider, providerId, chosen);
    assert forall j :: 0 <= j < |users| ==> r.0[j] == users[j] && !Matches(r.0[j], ByLogin(email));
    assert Matches(r.0[|users|], ByLogin(email));
  }

  /** The users table the routes query and update. */
  class UserTable {
    var users: seq<User>

    constructor(initial: seq<User>)
      ensures users == initial
    {
      users := initial;
    }

    /** `get_or_create_oauth_user`: return the row with this identity; else
        link the row with this email to it; else add a row. */
    method GetOrCreateOAuthUser(email: string, name: string, provider: Provider, providerId: string,
                                username: Option<string>) returns (u: User)
      modifies this
      ensures First(old(users), ByIdentity(provider, providerId)).Some? || First(old(users), ByEmail(email)).Some? ==>
        (users, u) == OAuthOutcome(old(users), email, name, provider, providerId, "")
      ensures First(old(users), ByIdentity(provider, providerId)).None? && First(old(users), ByEmail(email)).None? ==>
        ChosenUsername(old(users), email, username, u.username)
        && (users, u) == OAuthOutcome(old(users), email, name, provider, providerId, u.username)
    {
      var byIdentity := First(users, ByIdentity(provider, providerId));
      if byIdentity.Some? {
        return users[byIdentity.value];
      }
      var byEmail := First(users, ByEmail(email));
      if byEmail.Some? {
        var i := byEmail.value;
        users := users[i := users[i].(provider := provider, providerId := Some(providerId))];
        return users[i];
      }
      var chosen: string;
      if username.None? || username.value == "" {
        ghost var n: nat;
        chosen, n := GenerateUsername(users, email);
      } else {
        chosen := username.value;
      }
      u := User(chosen, name, email, None, provider, Some(providerId), UserRole);
      users := users + [u];
    }

    /** `register`, with the password already hashed. */
    method Register(email: string, name: string, hashed: string) returns (r: Registration)
      modifies this
      ensures (users, r) == RegisterOutcome(old(users), email, name, hashed)
    {
      if First(users, ByEmail(email)).Some? {
        return Rejected(EmailTaken);
      }
      var u := User(email, name, email, Some(hashed), EmailProvider, None, UserRole);
      users := users + [u];
      r := Registered(u);
    }
  }
}
