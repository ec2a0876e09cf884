/** The dashboard route: which dashboard the signed-in user's role selects. */
module Dashboard {
  import opened Wrappers

  datatype Page = ClientPage | FreelancerPage | AdminPage | AccessDenied

  /** `switch (user?.role)`; no user, or any other role, is refused. */
  function Select(role: Option<string>): (p: Page)
    ensures p == ClientPage <==> role == Some("CLIENT")
    ensures p == FreelancerPage <==> role == Some("FREELANCER")
    ensures p == AdminPage <==> role == Some("ADMIN")
    ensures p == AccessDenied <==> !(role.Some? && role.value in {"CLIENT", "FREELANCER", "ADMIN"})
  {
    if role == Some("CLIENT") then ClientPage
    else if role == Some("FREELANCER") then FreelancerPage
    else if role == Some("ADMIN") then AdminPage
    else AccessDenied
  }
}
