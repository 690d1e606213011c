/**
 * The dashboard: read-only display of the logged-in user, the role badge
 * chosen by priority, a yes/no badge per capability flag, and logout.
 */
module Dashboard {
  import opened Wrappers
  import opened UserRecord
  import opened AuthContext
  import opened Views

  /** The role tiers, highest priority first. */
  datatype Tier = AdminTier | DeveloperTier | IntegratorTier | UserTier

  datatype Icon = ShieldIcon | CodeIcon | LayersIcon | UserIcon

  /** The tier a user's flags select: administrador, then desenvolvedor, then integrador. */
  function RoleTier(u: User): (t: Tier)
    ensures t == AdminTier <==> u.administrador
    ensures t == DeveloperTier <==> !u.administrador && u.desenvolvedor
    ensures t == IntegratorTier <==> !u.administrador && !u.desenvolvedor && u.integrador
    ensures t == UserTier <==> !u.administrador && !u.desenvolvedor && !u.integrador
  {
    if u.administrador then AdminTier
    else if u.desenvolvedor then DeveloperTier
    else if u.integrador then IntegratorTier
    else UserTier
  }

  function TierText(t: Tier): string {
    match t
    case AdminTier => "Administrador"
    case DeveloperTier => "Desenvolvedor"
    case IntegratorTier => "Integrador"
    case UserTier => "Usuário"
  }

  function TierIcon(t: Tier): Icon {
    match t
    case AdminTier => ShieldIcon
    case DeveloperTier => CodeIcon
    case IntegratorTier => LayersIcon
    case UserTier => UserIcon
  }

  function TierColor(t: Tier): string {
    match t
    case AdminTier => "destructive"
    case DeveloperTier => "default"
    case IntegratorTier => "secondary"
    case UserTier => "outline"
  }

  /** `getRoleIcon`: its own chain of tests, agreeing with the tier table. */
  function RoleIcon(u: User): (i: Icon)
    ensures i == TierIcon(RoleTier(u))
  {
    if u.administrador then ShieldIcon
    else if u.desenvolvedor then CodeIcon
    else if u.integrador then LayersIcon
    else UserIcon
  }

  /** `getRoleText`. */
  function RoleText(u: User): (s: string)
    ensures s == TierText(RoleTier(u))
  {
    if u.administrador then "Administrador"
    else if u.desenvolvedor then "Desenvolvedor"
    else if u.integrador then "Integrador"
    else "Usuário"
  }

  /** `getRoleColor`: the badge variant. */
  function RoleColor(u: User): (s: string)
    ensures s == TierColor(RoleTier(u))
  {
    if u.administrador then "destructive"
    else if u.desenvolvedor then "default"
    else if u.integrador then "secondary"
    else "outline"
  }

  /** Each of the three tables tells the tiers apart. */
  lemma TierTablesInjective(a: Tier, b: Tier)
    ensures TierText(a) == TierText(b) ==> a == b
    ensures TierIcon(a) == TierIcon(b) ==> a == b
    ensures TierColor(a) == TierColor(b) ==> a == b
  {
  }

  /**
   * The icon, the text and the colour always select the same tier: two users
   * get the same text iff they get the same colour iff they get the same icon.
   */
  lemma RoleChoicesAgree(u: User, w: User)
    ensures RoleText(u) == RoleText(w) <==> RoleTier(u) == RoleTier(w)
    ensures RoleColor(u) == RoleColor(w) <==> RoleTier(u) == RoleTier(w)
    ensures RoleIcon(u) == RoleIcon(w) <==> RoleTier(u) == RoleTier(w)
  {
    TierTablesInjective(RoleTier(u), RoleTier(w));
  }

  /** A badge: its variant, whether it carries the check icon, and its text. */
  datatype Badge = Badge(variant: string, checkIcon: bool, text: string)

  /** The badge of one capability row. */
  function CapabilityBadge(flag: bool): (b: Badge)
    ensures b.text == "Sim" <==> flag
    ensures b.text == "Não" <==> !flag
    ensures b.checkIcon == flag && (b.variant == "default" <==> flag)
  {
    if flag then Badge("default", true, "Sim") else Badge("outline", false, "Não")
  }

  /** The status badge. */
  function StatusBadge(ativo: bool): (b: Badge)
    ensures b.text == "Ativo" <==> ativo
    ensures b.text == "Inativo" <==> !ativo
    ensures b.variant == (if ativo then "default" else "destructive") && !b.checkIcon
  {
    if ativo then Badge("default", false, "Ativo") else Badge("destructive", false, "Inativo")
  }

  /** What the dashboard shows of a user. */
  datatype Panel = Panel(
    nome: string, email: string, usuario: string, id: int,
    roleIcon: Icon, roleText: string, roleColor: string,
    nivel: string, perfilId: int, status: Badge,
    administrador: Badge, desenvolvedor: Badge, integrador: Badge)

  /** The dashboard page: a redirect to login without a user, otherwise the user's panel. */
  function View(user: Option<User>): (s: Screen<Panel>)
    ensures user.None? <==> s == Navigate(ToLogin)
    ensures s.Show? ==>
      var u := user.value;
      s.content.nome == u.nome && s.content.email == u.email && s.content.usuario == u.usuario &&
      s.content.id == u.id && s.content.nivel == u.nivel && s.content.perfilId == u.perfilId &&
      s.content.roleText == TierText(RoleTier(u)) && s.content.roleIcon == TierIcon(RoleTier(u)) &&
      s.content.roleColor == TierColor(RoleTier(u)) &&
      s.content.status == StatusBadge(u.ativo) &&
      s.content.administrador == CapabilityBadge(u.administrador) &&
      s.content.desenvolvedor == CapabilityBadge(u.desenvolvedor) &&
      s.content.integrador == CapabilityBadge(u.integrador) &&
      (s.content.status.text == "Ativo" <==> u.ativo) &&
      (s.content.administrador.text == "Sim" <==> u.administrador) &&
      (s.content.desenvolvedor.text == "Sim" <==> u.desenvolvedor) &&
      (s.content.integrador.text == "Sim" <==> u.integrador)
  {
    match user
    case None => Navigate(ToLogin)
    case Some(u) =>
      Show(Panel(u.nome, u.email, u.usuario, u.id,
                 RoleIcon(u), RoleText(u), RoleColor(u),
                 u.nivel, u.perfilId, StatusBadge(u.ativo),
                 CapabilityBadge(u.administrador), CapabilityBadge(u.desenvolvedor),
                 CapabilityBadge(u.integrador)))
  }

  /** The logout button: clears the session, after which the dashboard redirects to login. */
  method HandleLogout(auth: AuthProvider)
    modifies auth
    ensures auth.State() == LogoutEffect(old(auth.State()))
    ensures View(auth.user) == Navigate(ToLogin)
  {
    auth.Logout();
  }
}
