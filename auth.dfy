/**
  Table-driven access control: three fixed accounts, a role per user name
  and a page list per role, and a guard that runs a page only for the
  roles it names.
*/
module Auth {
  import opened Common

  const ValidUsers: map<string, string> := map["admin" := "admin123", "student" := "student123", "teacher" := "teacher123"]

  const Roles: map<string, seq<string>> := map[
    "admin" := ["chat", "upload", "settings", "llmtest", "home"],
    "teacher" := ["chat", "upload", "settings", "home"],
    "student" := ["chat", "settings", "home"]
  ]

  /** `hash_password`: the digest (SHA-256 in hex) is a parameter. */
  function HashPassword(password: string, digest: string -> string): string {
    digest(password)
  }

  /** `verify_password`. */
  function VerifyPassword(password: string, hashed: string, digest: string -> string): (r: bool)
    ensures r <==> HashPassword(password, digest) == hashed
  {
    HashPassword(password, digest) == hashed
  }

  /** A password always verifies against its own hash; with an injective
      digest, no other password does. */
  lemma VerifyHashed(password: string, other: string, digest: string -> string)
    requires forall a, b :: digest(a) == digest(b) ==> a == b
    ensures VerifyPassword(password, HashPassword(password, digest), digest)
    ensures VerifyPassword(other, HashPassword(password, digest), digest) <==> other == password
  {
  }

  /** `authenticate`: an unknown user name fails; a known one needs its password exactly. */
  function Authenticate(username: string, password: string): (r: bool)
    ensures r <==> username in ValidUsers && ValidUsers[username] == password
  {
    if username !in ValidUsers then false
    else
      var validPassword := ValidUsers[username];
      password == validPassword
  }

  /** Exactly the three fixed name/password pairs are accepted. */
  lemma AuthenticateAccounts(username: string, password: string)
    ensures Authenticate(username, password) <==>
      (username == "admin" && password == "admin123")
      || (username == "student" && password == "student123")
      || (username == "teacher" && password == "teacher123")
  {
  }

  /** `get_user_role`: "admin" and "teacher" are their own roles; every other name is a student. */
  function GetUserRole(username: string): (r: string)
    ensures r in Roles
    ensures r == "admin" <==> username == "admin"
    ensures r == "teacher" <==> username == "teacher"
    ensures r == "student" <==> username != "admin" && username != "teacher"
  {
    if username == "admin" then "admin"
    else if username == "teacher" then "teacher"
    else "student"
  }

  /** `get_available_pages`: the page list of the user's role (`[]` for a role without one). */
  function GetAvailablePages(username: string): (pages: seq<string>)
    ensures pages == Roles[GetUserRole(username)]
  {
    var role := GetUserRole(username);
    if role in Roles then Roles[role] else []
  }

  predicate SubsetOf(a: seq<string>, b: seq<string>) {
    forall x | x in a :: x in b
  }

  /** Every user gets at least the chat page. */
  lemma PagesNonEmpty(username: string)
    ensures GetAvailablePages(username) != []
    ensures "chat" in GetAvailablePages(username)
  {
    assert GetAvailablePages(username)[0] == "chat";
  }

  /** Student pages are teacher pages, and teacher pages are admin pages. */
  lemma PagesNested()
    ensures SubsetOf(GetAvailablePages("student"), GetAvailablePages("teacher"))
    ensures SubsetOf(GetAvailablePages("teacher"), GetAvailablePages("admin"))
  {
  }

  /** Uploading is for admins and teachers; the LLM test page is for admins only. */
  lemma PagePermissions(username: string)
    ensures "upload" in GetAvailablePages(username) <==> username == "admin" || username == "teacher"
    ensures "llmtest" in GetAvailablePages(username) <==> username == "admin"
  {
    var role := GetUserRole(username);
    if role == "student" {
      assert Roles[role] == ["chat", "settings", "home"];
      assert "upload" != "chat" && "upload" != "settings" && "upload" != "home";
      assert "llmtest" != "chat" && "llmtest" != "settings" && "llmtest" != "home";
    } else if role == "teacher" {
      assert Roles[role] == ["chat", "upload", "settings", "home"];
      assert Roles[role][1] == "upload";
      assert "llmtest" != "chat" && "llmtest" != "upload" && "llmtest" != "settings" && "llmtest" != "home";
    } else {
      assert Roles[role][1] == "upload" && Roles[role][3] == "llmtest";
    }
  }

  /** What the `require_role` wrapper did: refused, or ran the page and returned its result. */
  datatype Guarded<B> = Denied | Called(result: B)

  /** `require_role(*roles)(func)(args)` for the session's current role (`None` when nobody is logged in). */
  function RequireRole<A, B>(roles: seq<string>, currentRole: Option<string>, func: A -> B, args: A): (r: Guarded<B>)
    ensures r.Called? <==> currentRole.Some? && currentRole.value in roles
    ensures r.Called? ==> r.result == func(args)
  {
    if currentRole.None? || currentRole.value !in roles then Denied
    else Called(func(args))
  }
}
