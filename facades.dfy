/**
 * The per-entity services (`ClienteService`, `ElevadorService`,
 * `VistoriaService`, `OrdemServicoService`, `PecaService`,
 * `ConfiguracaoService`, `DashboardService`) and `AuthService.getCurrentUser`:
 * each operation is one gateway call on a fixed, slash-terminated path.
 */
module Facades {
  import opened Js
  import opened Http
  import Forms

  /** The entities with the full list/get/create/update/delete set of operations. */
  datatype Entity = Clientes | Elevadores | Vistorias | OrdensServico | Pecas

  function CollectionPath(entity: Entity): string
  {
    match entity
    case Clientes => "/clientes/"
    case Elevadores => "/elevadores/"
    case Vistorias => "/vistorias/"
    case OrdensServico => "/ordens-servico/"
    case Pecas => "/pecas/"
  }

  /** `${prefix}${id}/`: an id segment below a path. */
  function Below(prefix: string, id: JsValue): (p: string)
    requires |prefix| > 0 && prefix[0] == '/'
    ensures IsApiPath(p)
  {
    prefix + ToStr(id) + "/"
  }

  /** `/<collection>/${id}/`. */
  function ItemPath(entity: Entity, id: JsValue): string
  {
    Below(CollectionPath(entity), id)
  }

  /** A gateway call: which `ApiService` method is used, on which endpoint, with what. */
  datatype Call =
    | GetCall(endpoint: string, params: seq<(string, JsValue)>)
    | PostCall(endpoint: string, data: seq<(string, JsValue)>)
    | PutCall(endpoint: string, data: seq<(string, JsValue)>)
    | DeleteCall(endpoint: string)
    | UploadCall(endpoint: string, form: seq<FormEntry>)

  /** The operations of the entity services, with their arguments. */
  datatype Operation =
    | Listar(entity: Entity, params: seq<(string, JsValue)>)
    | Obter(entity: Entity, id: JsValue)
    | Criar(entity: Entity, data: seq<(string, JsValue)>)
    | Atualizar(entity: Entity, id: JsValue, data: seq<(string, JsValue)>)
    | Excluir(entity: Entity, id: JsValue)
    | ListarElevadoresPorCliente(clienteId: JsValue)
    | UploadFotosVistoria(vistoriaId: JsValue, files: seq<File>, descricao: JsValue)
    | ListarFotosVistoria(vistoriaId: JsValue)
    | RelatorioVistorias(params: seq<(string, JsValue)>)
    | UploadFotosOrdemServico(ordemServicoId: JsValue, files: seq<File>, descricao: JsValue, antesServico: JsValue)
    | ListarFotosOrdemServico(ordemServicoId: JsValue)
    | RelatorioOrdensServico(params: seq<(string, JsValue)>)
    | AdicionarPecaOrdemServico(ordemServicoId: JsValue, pecaId: JsValue, quantidade: JsValue,
                                precoUnitario: JsValue, observacao: JsValue)
    | ListarPecasUtilizadas(ordemServicoId: JsValue)
    | ObterConfiguracao
    | AtualizarConfiguracao(configuracao: seq<(string, JsValue)>)
    | ObterDashboard
    | UsuarioAtual

  /** An absolute, slash-terminated API path. */
  predicate IsApiPath(p: string)
  {
    |p| >= 2 && p[0] == '/' && p[|p| - 1] == '/'
  }

  /** Operations that only read. */
  predicate IsQuery(op: Operation)
  {
    op.Listar? || op.Obter? || op.ListarElevadoresPorCliente? || op.ListarFotosVistoria? ||
    op.RelatorioVistorias? || op.ListarFotosOrdemServico? || op.RelatorioOrdensServico? ||
    op.ListarPecasUtilizadas? || op.ObterConfiguracao? || op.ObterDashboard? || op.UsuarioAtual?
  }

  /** The five list/get/create/update/delete operations. */
  predicate IsCrud(op: Operation)
  {
    op.Listar? || op.Obter? || op.Criar? || op.Atualizar? || op.Excluir?
  }

  /** The gateway call of a list/get/create/update/delete operation. */
  function CrudRoute(op: Operation): (c: Call)
    requires IsCrud(op)
    ensures IsApiPath(c.endpoint)
    ensures (op.Listar? || op.Obter?) <==> c.GetCall?
    ensures op.Excluir? <==> c.DeleteCall?
    ensures !c.UploadCall?
  {
    match op
    case Listar(en, params) => GetCall(CollectionPath(en), params)
    case Obter(en, id) => GetCall(ItemPath(en, id), [])
    case Criar(en, data) => PostCall(CollectionPath(en), data)
    case Atualizar(en, id, data) => PutCall(ItemPath(en, id), data)
    case Excluir(en, id) => DeleteCall(ItemPath(en, id))
  }

  /** The gateway call of one of the other service operations. */
  function ServiceRoute(op: Operation): (c: Call)
    requires !IsCrud(op)
    ensures IsApiPath(c.endpoint)
    ensures IsQuery(op) <==> c.GetCall?
    ensures c.UploadCall? <==> op.UploadFotosVistoria? || op.UploadFotosOrdemServico?
    ensures !c.DeleteCall?
  {
    match op
    case ListarElevadoresPorCliente(clienteId) => GetCall("/elevadores/", [("cliente", clienteId)])
    case UploadFotosVistoria(id, files, descricao) =>
      UploadCall(Below("/upload-foto-vistoria/", id), Forms.InspectionPhotoForm(files, descricao))
    case ListarFotosVistoria(id) => GetCall("/fotos-vistorias/", [("vistoria", id)])
    case RelatorioVistorias(params) => GetCall("/relatorio-vistorias/", params)
    case UploadFotosOrdemServico(id, files, descricao, antesServico) =>
      UploadCall(Below("/upload-foto-ordem-servico/", id), Forms.OrderPhotoForm(files, descricao, antesServico))
    case ListarFotosOrdemServico(id) => GetCall("/fotos-ordens-servico/", [("ordem_servico", id)])
    case RelatorioOrdensServico(params) => GetCall("/relatorio-ordens-servico/", params)
    case AdicionarPecaOrdemServico(ordemServicoId, pecaId, quantidade, precoUnitario, observacao) =>
      PostCall("/pecas-utilizadas/", [("ordem_servico", ordemServicoId), ("peca", pecaId), ("quantidade", quantidade),
                                      ("preco_unitario", precoUnitario), ("observacao", Default(observacao, Str("")))])
    case ListarPecasUtilizadas(id) => GetCall("/pecas-utilizadas/", [("ordem_servico", id)])
    case ObterConfiguracao => GetCall("/configuracoes/1/", [])
    case AtualizarConfiguracao(data) => PutCall("/configuracoes/1/", data)
    case ObterDashboard => GetCall("/dashboard/", [])
    case UsuarioAtual => GetCall("/me/", [])
  }

  /**
   * The gateway call each service operation makes: always an absolute,
   * slash-terminated path; exactly the reading operations use GET, exactly the
   * deletions DELETE, exactly the two photo uploads a multipart POST.
   */
  function Route(op: Operation): (c: Call)
    ensures IsApiPath(c.endpoint)
    ensures IsQuery(op) <==> c.GetCall?
    ensures op.Excluir? <==> c.DeleteCall?
    ensures c.UploadCall? <==> op.UploadFotosVistoria? || op.UploadFotosOrdemServico?
  {
    if IsCrud(op) then CrudRoute(op) else ServiceRoute(op)
  }

  /**
   * The entity paths never collide: no two entities share a collection path, and
   * no item path, whatever its id, is the collection path of any entity.
   */
  lemma EntityPathsDistinct(e1: Entity, e2: Entity, id: JsValue)
    ensures e1 != e2 ==> CollectionPath(e1) != CollectionPath(e2)
    ensures ItemPath(e1, id) != CollectionPath(e2)
  {
    ItemPathExtendsCollection(e1, id);
    assert ItemPath(e1, id)[1] == CollectionPath(e1)[1];
    if ItemPath(e1, id) == CollectionPath(e2) {
      CollectionPathsStartApart(e1, e2);
    }
  }

  /** A list/get/create/update/delete call addresses its entity's collection path or the item path below it. */
  lemma CrudEndpoint(op: Operation)
    requires IsCrud(op)
    ensures |CollectionPath(op.entity)| <= |CrudRoute(op).endpoint|
    ensures CrudRoute(op).endpoint[..|CollectionPath(op.entity)|] == CollectionPath(op.entity)
    ensures op.Listar? || op.Criar? ==> CrudRoute(op).endpoint == CollectionPath(op.entity)
    ensures op.Obter? || op.Atualizar? || op.Excluir? ==> CrudRoute(op).endpoint == ItemPath(op.entity, op.id)
  {
    if op.Obter? || op.Atualizar? || op.Excluir? {
      ItemPathExtendsCollection(op.entity, op.id);
    }
  }

  /** Two list/get/create/update/delete calls on the same endpoint act on the same entity. */
  lemma EndpointIdentifiesEntity(op1: Operation, op2: Operation)
    requires IsCrud(op1) && IsCrud(op2) && CrudRoute(op1).endpoint == CrudRoute(op2).endpoint
    ensures op1.entity == op2.entity
  {
    CrudEndpoint(op1);
    CrudEndpoint(op2);
    var p := CrudRoute(op1).endpoint;
    assert p[1] == CollectionPath(op1.entity)[1];
    assert p[1] == CollectionPath(op2.entity)[1];
    CollectionPathsStartApart(op1.entity, op2.entity);
  }

  /** The collection paths already differ in their first letter. */
  lemma CollectionPathsStartApart(e1: Entity, e2: Entity)
    requires CollectionPath(e1)[1] == CollectionPath(e2)[1]
    ensures e1 == e2
  {
  }

  /**
   * The gateway call of a list/get/create/update/delete operation identifies it:
   * two such operations with the same call act on the same entity and are the
   * same kind of operation.
   */
  lemma RouteIdentifiesOperation(op1: Operation, op2: Operation)
    requires IsCrud(op1) && IsCrud(op2) && Route(op1) == Route(op2)
    ensures op1.entity == op2.entity
    ensures op1.Listar? == op2.Listar? && op1.Obter? == op2.Obter? && op1.Criar? == op2.Criar?
    ensures op1.Atualizar? == op2.Atualizar? && op1.Excluir? == op2.Excluir?
  {
    var c := CrudRoute(op1);
    assert c == CrudRoute(op2);
    EndpointIdentifiesEntity(op1, op2);
    if c.GetCall? && op1.Listar? != op2.Listar? {
      var item := if op1.Listar? then op2 else op1;
      CrudEndpoint(op1);
      CrudEndpoint(op2);
      EntityPathsDistinct(item.entity, item.entity, item.id);
    }
  }

  /** The item path is the collection path followed by the id segment: the id can be read back from it. */
  lemma ItemPathExtendsCollection(entity: Entity, id: JsValue)
    ensures |CollectionPath(entity)| < |ItemPath(entity, id)|
    ensures ItemPath(entity, id)[..|CollectionPath(entity)|] == CollectionPath(entity)
    ensures ItemPath(entity, id)[|CollectionPath(entity)|..|ItemPath(entity, id)| - 1] == ToStr(id)
  {
    var c, p := CollectionPath(entity), ItemPath(entity, id);
    assert p == c + (ToStr(id) + "/");
    assert p[|c|..|p| - 1] == (ToStr(id) + "/")[..|ToStr(id)|];
  }
}
