/** The user registry of app_lista_espera_admin.py, v5.3 and v6.1 (the three
    copies are identical): a dictionary in `st.session_state.usuarios` from
    user name to the SHA-256 hex digest of the password and a profile. The
    digest function is not modelled: the registry is given it as an
    uninterpreted function `hash`. */
module Users {

  datatype Profile = Administrador | Comum

  datatype Account = Account(senha: string, perfil: Profile)

  class Registry {
    const hash: string -> string
    var usuarios: map<string, Account>

    /** "admin" can never be removed. */
    ghost predicate Valid()
      reads this
    {
      "admin" in usuarios
    }

    /** The registry every session starts with. */
    constructor (hash: string -> string)
      ensures Valid() && this.hash == hash
      ensures usuarios == map["admin" := Account(hash("admin123"), Administrador),
                              "user1" := Account(hash("senha123"), Comum)]
    {
      this.hash := hash;
      usuarios := map["admin" := Account(hash("admin123"), Administrador),
                      "user1" := Account(hash("senha123"), Comum)];
    }

    /** `autenticar`: an unknown user never authenticates; a known one does
        exactly when the stored digest is the digest of the password given. */
    function Authenticate(usuario: string, senha: string): (ok: bool)
      reads this
      ensures usuario !in usuarios ==> !ok
      ensures usuario in usuarios ==> (ok <==> usuarios[usuario].senha == hash(senha))
    {
      var senhaCripto := hash(senha);
      if usuario in usuarios then usuarios[usuario].senha == senhaCripto else false
    }

    /** `alterar_senha`: only the digest of this user changes; afterwards the
        new password authenticates. The source raises a KeyError for an
        unknown user; its callers pass the logged-in user. */
    method ChangePassword(usuario: string, novaSenha: string)
      requires Valid() && usuario in usuarios
      modifies this
      ensures Valid()
      ensures usuarios.Keys == old(usuarios).Keys
      ensures usuarios[usuario] == old(usuarios)[usuario].(senha := hash(novaSenha))
      ensures forall u | u in usuarios && u != usuario :: usuarios[u] == old(usuarios)[u]
      ensures Authenticate(usuario, novaSenha)
    {
      usuarios := usuarios[usuario := usuarios[usuario].(senha := hash(novaSenha))];
    }

    /** `alterar_perfil`: only the profile of this user changes, so who can log
        in with what is unchanged. */
    method ChangeProfile(usuario: string, novoPerfil: Profile)
      requires Valid() && usuario in usuarios
      modifies this
      ensures Valid()
      ensures usuarios.Keys == old(usuarios).Keys
      ensures usuarios[usuario] == old(usuarios)[usuario].(perfil := novoPerfil)
      ensures forall u | u in usuarios && u != usuario :: usuarios[u] == old(usuarios)[u]
      ensures forall u, s :: Authenticate(u, s) == old(Authenticate(u, s))
    {
      usuarios := usuarios[usuario := usuarios[usuario].(perfil := novoPerfil)];
    }

    /** `adicionar_usuario`: a new name is inserted with the digest of its
        password and the result is true; an existing name is never
        overwritten, the result is false and nothing changes. */
    method AddUser(novoUsuario: string, senha: string, perfil: Profile) returns (ok: bool)
      requires Valid()
      modifies this
      ensures Valid()
      ensures ok <==> novoUsuario !in old(usuarios)
      ensures ok ==> usuarios == old(usuarios)[novoUsuario := Account(hash(senha), perfil)]
      ensures !ok ==> usuarios == old(usuarios)
      ensures ok ==> Authenticate(novoUsuario, senha)
    {
      if novoUsuario !in usuarios {
        usuarios := usuarios[novoUsuario := Account(hash(senha), perfil)];
        return true;
      }
      return false;
    }

    /** `excluir_usuario`: removes a present user other than "admin"; every
        other entry is unchanged, and a removed user no longer authenticates. */
    method DeleteUser(usuario: string)
      requires Valid()
      modifies this
      ensures Valid()
      ensures usuarios == if usuario in old(usuarios) && usuario != "admin"
                          then old(usuarios) - {usuario} else old(usuarios)
      ensures usuario != "admin" ==> forall s :: !Authenticate(usuario, s)
      ensures "admin" in usuarios && usuarios["admin"] == old(usuarios)["admin"]
    {
      if usuario in usuarios && usuario != "admin" {
        usuarios := usuarios - {usuario};
      }
    }
  }
}
