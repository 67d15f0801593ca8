/**
 * The pure helpers of the dashboard page: label lookups with a fallback, the
 * figures behind the stat cards and pie charts, the displayed user name, the
 * permission decision and the unread-notification count.
 */
module Dashboard {
  import opened Js

  // ---------------------------------------------------------------------------
  // Object-literal lookups: `table[key] || fallback`
  // ---------------------------------------------------------------------------

  /** The members every object literal inherits from `Object.prototype`. */
  const PrototypeMembers: set<string> := {
    "constructor", "hasOwnProperty", "isPrototypeOf", "propertyIsEnumerable",
    "toLocaleString", "toString", "valueOf", "__proto__",
    "__defineGetter__", "__defineSetter__", "__lookupGetter__", "__lookupSetter__"
  }

  /** What `table[key]` yields on an object literal: an own string, an inherited member (a function or object), or `undefined`. */
  datatype Lookup = Own(value: string) | Inherited(member: string) | Missing

  function LiteralLookup(table: map<string, string>, key: string): Lookup
  {
    if key in table then Own(table[key])
    else if key in PrototypeMembers then Inherited(key)
    else Missing
  }

  /** A value the page displays: a string, or an inherited member that is not one. */
  datatype Shown = Text(s: string) | InheritedMember(member: string)

  /** `table[key] || fallback` as written: an inherited member is truthy and wins over the fallback. */
  function OrFallbackAsWritten(table: map<string, string>, key: string, fallback: string): Shown
  {
    match LiteralLookup(table, key)
    case Own(v) => if v != "" then Text(v) else Text(fallback)
    case Inherited(m) => InheritedMember(m)
    case Missing => Text(fallback)
  }

  /** The intended lookup: an own entry of the table, else the fallback. */
  function OrFallback(table: map<string, string>, key: string, fallback: string): (r: string)
    ensures key in table && table[key] != "" ==> r == table[key]
    ensures key !in table ==> r == fallback
  {
    if key in table && table[key] != "" then table[key] else fallback
  }

  /** The two agree on every key that is not the name of an inherited member. */
  lemma OrFallbackAgrees(table: map<string, string>, key: string, fallback: string)
    requires key !in PrototypeMembers || key in table
    ensures OrFallbackAsWritten(table, key, fallback) == Text(OrFallback(table, key, fallback))
  {
  }

  const TipoLabels: map<string, string> := map[
    "admin" := "Administrador", "tecnico" := "Técnico",
    "cliente" := "Cliente", "atendimento" := "Atendimento"]

  const StatusClasses: map<string, string> := map[
    "agendada" := "pending", "em_andamento" := "in-progress", "concluida" := "completed",
    "cancelada" := "cancelled", "aberta" := "pending", "aguardando_peca" := "waiting"]

  const StatusTexts: map<string, string> := map[
    "agendada" := "Agendada", "em_andamento" := "Em Andamento", "concluida" := "Concluída",
    "cancelada" := "Cancelada", "aberta" := "Aberta", "aguardando_peca" := "Aguardando Peça"]

  /** `getTipoUsuarioFormatado(tipo)` as written. */
  function TipoUsuarioFormatadoAsWritten(tipo: string): Shown
  {
    OrFallbackAsWritten(TipoLabels, tipo, tipo)
  }

  /** `getTipoUsuarioFormatado(tipo)`: the four roles get their label, any other `tipo` is shown unchanged. */
  function TipoUsuarioFormatado(tipo: string): (r: string)
    ensures tipo == "admin" ==> r == "Administrador"
    ensures tipo == "tecnico" ==> r == "Técnico"
    ensures tipo == "cliente" ==> r == "Cliente"
    ensures tipo == "atendimento" ==> r == "Atendimento"
    ensures tipo !in {"admin", "tecnico", "cliente", "atendimento"} ==> r == tipo
  {
    OrFallback(TipoLabels, tipo, tipo)
  }

  /** `getStatusClass(status)`: six known statuses, `agendada` and `aberta` both `pending`, else `default`. */
  function StatusClass(status: string): (r: string)
    ensures status in {"agendada", "aberta"} ==> r == "pending"
    ensures status == "em_andamento" ==> r == "in-progress"
    ensures status == "concluida" ==> r == "completed"
    ensures status == "cancelada" ==> r == "cancelled"
    ensures status == "aguardando_peca" ==> r == "waiting"
    ensures status !in StatusClasses ==> r == "default"
  {
    OrFallback(StatusClasses, status, "default")
  }

  /** `getStatusClass(status)` as written. */
  function StatusClassAsWritten(status: string): Shown
  {
    OrFallbackAsWritten(StatusClasses, status, "default")
  }

  /** `getStatusText(status)`: six known statuses get their label, any other status is shown unchanged. */
  function StatusText(status: string): (r: string)
    ensures status in StatusTexts ==> r == StatusTexts[status] && r != status
    ensures status !in StatusTexts ==> r == status
  {
    OrFallback(StatusTexts, status, status)
  }

  /** `getStatusText(status)` as written. */
  function StatusTextAsWritten(status: string): Shown
  {
    OrFallbackAsWritten(StatusTexts, status, status)
  }

  /** Every status with a text has a class other than `default`, and the other way round. */
  lemma StatusTablesAgree(status: string)
    ensures status in StatusTexts <==> StatusClass(status) != "default"
  {
  }

  /**
   * The as-written lookups leak inherited members: a `tipo` or status named
   * `constructor` displays the `Object` function instead of falling back.
   */
  lemma PrototypeKeyLeaks()
    ensures TipoUsuarioFormatadoAsWritten("constructor") == InheritedMember("constructor")
    ensures TipoUsuarioFormatado("constructor") == "constructor"
    ensures StatusClassAsWritten("toString") == InheritedMember("toString")
    ensures StatusClass("toString") == "default"
    ensures StatusTextAsWritten("valueOf") == InheritedMember("valueOf")
    ensures StatusText("valueOf") == "valueOf"
  {
    assert "constructor" !in TipoLabels;
    assert "toString" !in StatusClasses;
    assert "toString" !in StatusTexts;
    assert "valueOf" !in StatusTexts;
  }

  /** Outside the inherited member names, the as-written lookups display exactly what the intended ones return. */
  lemma LookupsAgreeOutsidePrototype(key: string)
    requires key !in PrototypeMembers
    ensures TipoUsuarioFormatadoAsWritten(key) == Text(TipoUsuarioFormatado(key))
    ensures StatusClassAsWritten(key) == Text(StatusClass(key))
    ensures StatusTextAsWritten(key) == Text(StatusText(key))
  {
    OrFallbackAgrees(TipoLabels, key, key);
    OrFallbackAgrees(StatusClasses, key, "default");
    OrFallbackAgrees(StatusTexts, key, key);
  }

  // ---------------------------------------------------------------------------
  // Stat cards and pie charts
  // ---------------------------------------------------------------------------

  /** The aggregate the dashboard endpoint returns (the counters used by the page). */
  datatype DashboardData = DashboardData(
    totalClientes: int, totalElevadores: int, vistoriasPendentes: int, totalVistorias: int,
    totalOrdensServico: int, ordensAbertas: int, ordensEmAndamento: int, ordensAguardandoPeca: int)

  function Sum(xs: seq<int>): int
  {
    if xs == [] then 0 else Sum(xs[..|xs| - 1]) + xs[|xs| - 1]
  }

  /** The four stat cards: clients, elevators, pending inspections, active service orders. */
  function StatCards(d: DashboardData): (cards: seq<int>)
    ensures |cards| == 4
    ensures cards[..3] == [d.totalClientes, d.totalElevadores, d.vistoriasPendentes]
    ensures cards[3] == d.ordensAbertas + d.ordensEmAndamento
  {
    [d.totalClientes, d.totalElevadores, d.vistoriasPendentes, d.ordensAbertas + d.ordensEmAndamento]
  }

  /**
   * The service-order pie: open, in progress, waiting for parts, and the rest as
   * completed. The slices always sum to the total; the last one is not clamped
   * and is negative exactly when the three counted statuses exceed the total.
   */
  function OrderSlices(d: DashboardData): (slices: seq<int>)
    ensures |slices| == 4
    ensures slices[..3] == [d.ordensAbertas, d.ordensEmAndamento, d.ordensAguardandoPeca]
    ensures Sum(slices) == d.totalOrdensServico
    ensures slices[3] < 0 <==> d.ordensAbertas + d.ordensEmAndamento + d.ordensAguardandoPeca > d.totalOrdensServico
  {
    var s := [d.ordensAbertas, d.ordensEmAndamento, d.ordensAguardandoPeca,
              d.totalOrdensServico - d.ordensAbertas - d.ordensEmAndamento - d.ordensAguardandoPeca];
    var a, b, c := d.ordensAbertas, d.ordensEmAndamento, d.ordensAguardandoPeca;
    assert s[..3] == [a, b, c] && [a, b, c][..2] == [a, b] && [a, b][..1] == [a] && [a][..0] == [];
    assert Sum([a]) == a;
    assert Sum([a, b]) == a + b;
    assert Sum([a, b, c]) == a + b + c;
    s
  }

  /** The inspection pie: pending and the rest; the two slices sum to the total. */
  function InspectionSlices(d: DashboardData): (slices: seq<int>)
    ensures |slices| == 2 && slices[0] == d.vistoriasPendentes
    ensures Sum(slices) == d.totalVistorias
    ensures slices[1] < 0 <==> d.vistoriasPendentes > d.totalVistorias
  {
    var s := [d.vistoriasPendentes, d.totalVistorias - d.vistoriasPendentes];
    assert s[..1] == [d.vistoriasPendentes] && [d.vistoriasPendentes][..0] == [];
    assert Sum([d.vistoriasPendentes]) == d.vistoriasPendentes;
    s
  }

  /** The active-orders card and the pie agree: active plus waiting plus completed is the total. */
  lemma ActiveCardMatchesPie(d: DashboardData)
    ensures StatCards(d)[3] + OrderSlices(d)[2] + OrderSlices(d)[3] == d.totalOrdensServico
  {
  }

  // ---------------------------------------------------------------------------
  // User header and permissions
  // ---------------------------------------------------------------------------

  /** The profile fields the header uses. */
  datatype UserData = UserData(firstName: JsValue, lastName: JsValue, username: JsValue, tipo: JsValue)

  /** The displayed name: `${first_name} ${last_name}` when `first_name` is truthy, else `username`. */
  function DisplayName(u: UserData): (name: JsValue)
    ensures Truthy(u.firstName) ==>
      name.Str? && |name.s| > |ToStr(u.firstName)| &&
      name.s[..|ToStr(u.firstName)| + 1] == ToStr(u.firstName) + " " &&
      name.s[|ToStr(u.firstName)| + 1..] == ToStr(u.lastName)
    ensures !Truthy(u.firstName) ==> name == u.username
  {
    if Truthy(u.firstName) then
      var first := ToStr(u.firstName);
      var s := first + " " + ToStr(u.lastName);
      assert s[..|first| + 1] == first + " ";
      assert s[|first| + 1..] == ToStr(u.lastName);
      Str(s)
    else u.username
  }

  /** Which role-restricted menu items `adjustPermissions(tipo)` hides and shows. */
  datatype Visibility = Visibility(hideAdminOnly: bool, showTecnicoOnly: bool)

  /**
   * `adjustPermissions(tipo)`: admin-only items are hidden for every `tipo` but
   * the string `'admin'`, technician-only items shown for `'tecnico'` alone
   * (strict equality); so a technician never keeps the admin-only items.
   */
  function AdjustPermissions(tipo: JsValue): (v: Visibility)
    ensures v.hideAdminOnly <==> tipo != Str("admin")
    ensures v.showTecnicoOnly <==> tipo == Str("tecnico")
    ensures v.showTecnicoOnly ==> v.hideAdminOnly
  {
    Visibility(tipo != Str("admin"), tipo == Str("tecnico"))
  }

  /** A page element the two selectors can match: its role classes and its inline `style.display`. */
  datatype Element = Element(adminOnly: bool, tecnicoOnly: bool, display: string)

  /** The first update: an `.admin-only` element is set to `none` when admin-only items are hidden. */
  function Hide(v: Visibility, el: Element): Element
  {
    if v.hideAdminOnly && el.adminOnly then el.(display := "none") else el
  }

  /** The second update: a `.tecnico-only` element is set to `block` when technician items are shown. */
  function Show(v: Visibility, el: Element): Element
  {
    if v.showTecnicoOnly && el.tecnicoOnly then el.(display := "block") else el
  }

  /**
   * What `adjustPermissions(tipo)` does to one element: an administrator's page
   * is left as it is; only elements of the two role classes change; a
   * technician sees every technician item, even one also marked admin-only,
   * because the second update runs last; every other admin-only item is hidden.
   */
  lemma PermissionsOutcome(tipo: JsValue, el: Element)
    ensures var v := AdjustPermissions(tipo);
      var after := Show(v, Hide(v, el));
      && after.adminOnly == el.adminOnly && after.tecnicoOnly == el.tecnicoOnly
      && (tipo == Str("admin") ==> after == el)
      && (!el.adminOnly && !el.tecnicoOnly ==> after == el)
      && (el.tecnicoOnly && tipo == Str("tecnico") ==> after.display == "block")
      && (el.adminOnly && tipo != Str("admin") && !(el.tecnicoOnly && tipo == Str("tecnico")) ==>
            after.display == "none")
  {
  }

  /**
   * `adjustPermissions(tipo)` on a page: the hiding `forEach`, then the showing
   * one, each over the elements of its class, updating them in place.
   */
  method ApplyPermissions(tipo: JsValue, page: array<Element>)
    modifies page
    ensures forall i :: 0 <= i < page.Length ==>
      page[i] == Show(AdjustPermissions(tipo), Hide(AdjustPermissions(tipo), old(page[i])))
  {
    var v := AdjustPermissions(tipo);
    if tipo != Str("admin") {
      for i := 0 to page.Length
        invariant forall j :: 0 <= j < i ==> page[j] == Hide(v, old(page[j]))
        invariant forall j :: i <= j < page.Length ==> page[j] == old(page[j])
      {
        if page[i].adminOnly {
          page[i] := page[i].(display := "none");
        }
      }
    }
    assert forall j :: 0 <= j < page.Length ==> page[j] == Hide(v, old(page[j]));
    if tipo == Str("tecnico") {
      for i := 0 to page.Length
        invariant forall j :: 0 <= j < i ==> page[j] == Show(v, Hide(v, old(page[j])))
        invariant forall j :: i <= j < page.Length ==> page[j] == Hide(v, old(page[j]))
      {
        if page[i].tecnicoOnly {
          page[i] := page[i].(display := "block");
        }
      }
    }
  }

  // ---------------------------------------------------------------------------
  // Notifications
  // ---------------------------------------------------------------------------

  datatype Notification = Notification(id: int, title: string, read: JsValue)

  /** `notifications.filter(n => !n.read).length`. */
  function UnreadCount(ns: seq<Notification>): nat
  {
    if ns == [] then 0
    else UnreadCount(ns[..|ns| - 1]) + (if Truthy(ns[|ns| - 1].read) then 0 else 1)
  }

  /** The badge's CSS `display`: shown only when something is unread. */
  function BadgeDisplay(unread: nat): string
  {
    if unread > 0 then "block" else "none"
  }

  /** The three placeholder notifications the page shows, all unread. */
  const StaticNotifications: seq<Notification> := [
    Notification(1, "Nova vistoria agendada", Bool(false)),
    Notification(2, "Ordem de serviço #123 atualizada", Bool(false)),
    Notification(3, "Novo cliente cadastrado", Bool(false))]

  lemma {:induction false} UnreadCountAppend(a: seq<Notification>, b: seq<Notification>)
    ensures UnreadCount(a + b) == UnreadCount(a) + UnreadCount(b)
    decreases |b|
  {
    if b == [] {
      assert a + b == a;
    } else {
      var b' := b[..|b| - 1];
      assert (a + b)[..|a + b| - 1] == a + b';
      UnreadCountAppend(a, b');
    }
  }

  /** The count never exceeds the list, reaches it iff nothing is read, and is zero iff everything is read. */
  lemma {:induction false} UnreadCountBounds(ns: seq<Notification>)
    ensures UnreadCount(ns) <= |ns|
    ensures UnreadCount(ns) == |ns| <==> forall i :: 0 <= i < |ns| ==> !Truthy(ns[i].read)
    ensures UnreadCount(ns) == 0 <==> forall i :: 0 <= i < |ns| ==> Truthy(ns[i].read)
  {
    if ns != [] {
      var init := ns[..|ns| - 1];
      UnreadCountBounds(init);
      assert forall i :: 0 <= i < |init| ==> init[i] == ns[i];
    }
  }

  /** The placeholder list gives the badge the number 3, displayed. */
  lemma StaticBadge()
    ensures UnreadCount(StaticNotifications) == 3
    ensures BadgeDisplay(UnreadCount(StaticNotifications)) == "block"
  {
    UnreadCountBounds(StaticNotifications);
  }
}
