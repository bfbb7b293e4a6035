/** The mobile sign-in screen: it checks the fields, signs in, loads the
    user's profile (or builds a default one) and opens the screen of the
    user's role. */
module Login {
  import opened Common

  datatype Perfil = Perfil(id: string, nombre: string, rol: string)

  /** The authenticated user as the sign-in returns it. */
  datatype Usuario = Usuario(id: string, email: string)

  datatype Pantalla = HomeScreen | CocinaScreen

  datatype AvisoLogin = CamposVacios | ErrorDeAcceso | SinUsuario | RolNoValido

  /** `email.split("@")[0]`: the text before the first `@`, or all of it. */
  function PrefijoEmail(email: string): (r: string)
    ensures r <= email && '@' !in r
    ensures |r| < |email| ==> email[|r|] == '@'
  {
    if email == [] || email[0] == '@' then ""
    else [email[0]] + PrefijoEmail(email[1..])
  }

  /** The profile used after sign-in: the stored one, or a waiter profile
      named after the address. */
  function PerfilFinal(perfil: Option<Perfil>, u: Usuario): (r: Perfil)
    ensures perfil.Some? ==> r == perfil.value
    ensures perfil.None? ==> r.id == u.id && r.nombre == PrefijoEmail(u.email) && r.rol == "Mesero"
  {
    if perfil.Some? then perfil.value else Perfil(u.id, PrefijoEmail(u.email), "Mesero")
  }

  /** The screen a role opens: waiters get the tables, the kitchen gets
      its board, and any other role gets none. */
  function Destino(rol: string): (r: Option<Pantalla>)
    ensures r == Some(HomeScreen) <==> rol == "Mesero"
    ensures r == Some(CocinaScreen) <==> rol == "Cocina"
  {
    if rol == "Mesero" then Some(HomeScreen)
    else if rol == "Cocina" then Some(CocinaScreen)
    else None
  }

  /** A user without a stored profile always lands on the tables. */
  lemma SinPerfilEsMesero(u: Usuario)
    ensures Destino(PerfilFinal(None, u).rol) == Some(HomeScreen)
  {
  }

  class PantallaLogin {
    var email: string
    var password: string
    var cargando: bool
    var aviso: Option<AvisoLogin>
    /** How many sign-in requests the screen has sent. */
    var intentos: nat
    /** The screen opened and the profile handed to it, once navigated. */
    var navegado: Option<(Pantalla, Perfil)>

    constructor ()
      ensures email == "" && password == "" && !cargando && aviso == None && intentos == 0 && navegado == None
    {
      email := "";
      password := "";
      cargando := false;
      aviso := None;
      intentos := 0;
      navegado := None;
    }

    /** `handleLogin`. `errorAcceso` is the sign-in's error, `usuario` the
        user it returns, `perfil` the stored profile (none when missing or
        unreadable). */
    method HandleLogin(errorAcceso: bool, usuario: Option<Usuario>, perfil: Option<Perfil>)
      modifies this`cargando, this`aviso, this`intentos, this`navegado
      ensures email == "" || password == "" ==>
        intentos == old(intentos) && aviso == Some(CamposVacios) && navegado == old(navegado) &&
        cargando == old(cargando)
      ensures email != "" && password != "" ==> intentos == old(intentos) + 1 && !cargando
      ensures email != "" && password != "" && errorAcceso ==>
        aviso == Some(ErrorDeAcceso) && navegado == old(navegado)
      ensures email != "" && password != "" && !errorAcceso && usuario.None? ==>
        aviso == Some(SinUsuario) && navegado == old(navegado)
      ensures email != "" && password != "" && !errorAcceso && usuario.Some? ==>
        var p := PerfilFinal(perfil, usuario.value);
        if Destino(p.rol).Some? then navegado == Some((Destino(p.rol).value, p)) && aviso == old(aviso)
        else navegado == old(navegado) && aviso == Some(RolNoValido)
    {
      if email == "" || password == "" {
        aviso := Some(CamposVacios);
        return;
      }
      cargando := true;
      intentos := intentos + 1;
      if errorAcceso {
        aviso := Some(ErrorDeAcceso);
      } else if usuario.None? {
        aviso := Some(SinUsuario);
      } else {
        var p := PerfilFinal(perfil, usuario.value);
        var destino := Destino(p.rol);
        if destino.Some? {
          navegado := Some((destino.value, p));
        } else {
          aviso := Some(RolNoValido);
        }
      }
      cargando := false;
    }
  }
}
