/** The mobile sign-up screen: field checks, the sign-up request and the
    password-strength hint shown under the field. */
module Register {
  import opened Common

  /** What `handleRegister` decides before any request is sent. */
  datatype Chequeo = CamposVacios | ContrasenaDebil | Enviar

  /** The hint under the password field. */
  datatype Pista = Consejo | MuyCorta | Media | Buena

  datatype AvisoRegistro = Vacios | Debil | ErrorAlRegistrar | RegistroExitoso

  /** Both fields must be filled, and then the password needs a
      JavaScript `length` of six: six UTF-16 code units, so three
      characters outside the Basic Multilingual Plane are enough. */
  function Chequear(email: string, password: string): (r: Chequeo)
    ensures r == CamposVacios <==> email == "" || password == ""
    ensures r == ContrasenaDebil <==> email != "" && password != "" && Utf16Length(password) < 6
    ensures r == Enviar <==> email != "" && Utf16Length(password) >= 6
    ensures r == Enviar ==> |password| >= 3
  {
    if email == "" || password == "" then CamposVacios
    else if Utf16Length(password) < 6 then ContrasenaDebil
    else Enviar
  }

  /** The hint by the password's JavaScript `length`. */
  function PistaDe(password: string): (r: Pista)
    ensures r == Consejo <==> password == []
    ensures r == MuyCorta <==> 1 <= Utf16Length(password) <= 5
    ensures r == Media <==> 6 <= Utf16Length(password) <= 9
    ensures r == Buena <==> Utf16Length(password) >= 10
  {
    var n := Utf16Length(password);
    if n == 0 then Consejo
    else if n < 6 then MuyCorta
    else if n < 10 then Media
    else Buena
  }

  /** With both fields filled, the hint warns "muy corta" exactly for the
      passwords the length check refuses. */
  lemma PistaCoincideConChequeo(email: string, password: string)
    requires email != "" && password != ""
    ensures PistaDe(password) == MuyCorta <==> Chequear(email, password) == ContrasenaDebil
  {
  }

  /** Three characters outside the Basic Multilingual Plane (emoji, say)
      have a JavaScript `length` of six: the password passes the length
      check and the hint says "media". */
  lemma ContrasenaAstral(email: string, c: char)
    requires email != "" && c as int >= 0x10000
    ensures Chequear(email, [c, c, c]) == Enviar && PistaDe([c, c, c]) == Media
  {
    var p := [c, c, c];
    assert [c][..0] == [];
    assert Utf16Length([c]) == 2;
    assert [c, c][..1] == [c];
    assert Utf16Length([c, c]) == 4;
    assert p[..2] == [c, c];
  }

  class PantallaRegistro {
    var email: string
    var password: string
    var cargando: bool
    var aviso: Option<AvisoRegistro>
    /** How many sign-up requests the screen has sent. */
    var intentos: nat

    constructor ()
      ensures email == "" && password == "" && !cargando && aviso == None && intentos == 0
    {
      email := "";
      password := "";
      cargando := false;
      aviso := None;
      intentos := 0;
    }

    /** `handleRegister`. `errorRegistro` is the sign-up's error and
        `creado` whether it returned a user. */
    method HandleRegister(errorRegistro: bool, creado: bool)
      modifies this`cargando, this`aviso, this`intentos
      ensures Chequear(email, password) == CamposVacios ==>
        intentos == old(intentos) && aviso == Some(Vacios) && cargando == old(cargando)
      ensures Chequear(email, password) == ContrasenaDebil ==>
        intentos == old(intentos) && aviso == Some(Debil) && cargando == old(cargando)
      ensures Chequear(email, password) == Enviar ==>
        intentos == old(intentos) + 1 && !cargando &&
        aviso == (if errorRegistro then Some(ErrorAlRegistrar) else if creado then Some(RegistroExitoso) else old(aviso))
    {
      if email == "" || password == "" {
        aviso := Some(Vacios);
        return;
      }
      if Utf16Length(password) < 6 {
        aviso := Some(Debil);
        return;
      }
      cargando := true;
      intentos := intentos + 1;
      if errorRegistro {
        aviso := Some(ErrorAlRegistrar);
      } else if creado {
        aviso := Some(RegistroExitoso);
      }
      cargando := false;
    }
  }
}
