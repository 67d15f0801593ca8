/**
 * `simulateLogin(email, password)`: the demonstration login of the public
 * site, which checks the pair against three fixed accounts and builds the
 * user record without calling the API.
 */
module DemoLogin {

  datatype User = User(name: string, email: string, role: string)

  datatype LoginResult = Accepted(user: User) | Refused(message: string)

  datatype Account = Account(email: string, password: string, name: string, role: string)

  const RefusedMessage := "Email ou senha incorretos"

  /** The three demonstration accounts, in the order they are checked. */
  const Accounts: seq<Account> := [
    Account("admin@efataprime.com.br", "admin123", "Administrador", "admin"),
    Account("tecnico@efataprime.com.br", "tecnico123", "Técnico", "tecnico"),
    Account("cliente@exemplo.com.br", "cliente123", "Cliente", "cliente")
  ]

  /** The pair matches some account of the table. */
  predicate Matches(email: string, password: string)
  {
    exists i :: 0 <= i < |Accounts| && Accounts[i].email == email && Accounts[i].password == password
  }

  /**
   * The login: the pair is accepted exactly when it matches an account of the
   * table, and the user record is that account's name, e-mail and role.
   */
  function SimulateLogin(email: string, password: string): (r: LoginResult)
    ensures r.Accepted? <==> Matches(email, password)
    ensures r.Accepted? ==>
      && r.user.email == email
      && exists i :: 0 <= i < |Accounts| && Accounts[i] == Account(email, password, r.user.name, r.user.role)
    ensures r.Refused? ==> r.message == RefusedMessage
  {
    if email == "admin@efataprime.com.br" && password == "admin123" then
      assert Accounts[0] == Account(email, password, "Administrador", "admin");
      Accepted(User("Administrador", "admin@efataprime.com.br", "admin"))
    else if email == "tecnico@efataprime.com.br" && password == "tecnico123" then
      assert Accounts[1] == Account(email, password, "Técnico", "tecnico");
      Accepted(User("Técnico", "tecnico@efataprime.com.br", "tecnico"))
    else if email == "cliente@exemplo.com.br" && password == "cliente123" then
      assert Accounts[2] == Account(email, password, "Cliente", "cliente");
      Accepted(User("Cliente", "cliente@exemplo.com.br", "cliente"))
    else
      Refused(RefusedMessage)
  }

  /** The accounts have distinct e-mails and distinct roles. */
  lemma AccountsDistinct()
    ensures forall i, j :: 0 <= i < j < |Accounts| ==> Accounts[i].email != Accounts[j].email
    ensures forall i, j :: 0 <= i < j < |Accounts| ==> Accounts[i].role != Accounts[j].role
  {
    assert Accounts[0].email[0] == 'a' && Accounts[1].email[0] == 't' && Accounts[2].email[0] == 'c';
    assert Accounts[0].role[0] == 'a' && Accounts[1].role[0] == 't' && Accounts[2].role[0] == 'c';
  }

  /**
   * A known e-mail with any password but its own is refused, and the accepted
   * role is determined by the e-mail alone.
   */
  lemma OnlyOwnPassword(email: string, password: string, i: nat)
    requires i < |Accounts| && Accounts[i].email == email
    ensures SimulateLogin(email, password).Accepted? <==> password == Accounts[i].password
    ensures SimulateLogin(email, password).Accepted? ==> SimulateLogin(email, password).user.role == Accounts[i].role
  {
    AccountsDistinct();
  }
}
