/** The registration form (`app/auth/register/page.tsx`): `handleSubmit`
    checks the fields in a fixed order, reports the first failure, and only
    then sends name, e-mail and password to the sign-up action. */
module Register {
  import opened Common

  const MensajeCampos: string := "Por favor completa todos los campos"
  const MensajeNoCoinciden: string := "Las contraseñas no coinciden"
  const MensajeCorta: string := "La contraseña debe tener al menos 6 caracteres"

  /** The shortest password accepted. */
  const LargoMinimo: nat := 6

  /** The form data sent to the sign-up action; the confirmation is not part of it. */
  datatype Alta = Alta(nombre: string, email: string, password: string)

  predicate Completo(nombre: string, email: string, password: string, confirmPassword: string)
  {
    nombre != [] && email != [] && password != [] && confirmPassword != []
  }

  /** The checks of `handleSubmit` in their order: the message of the first one that
      fails, or nothing when the form may be sent. */
  function ValidarRegistro(nombre: string, email: string, password: string, confirmPassword: string): (r: Option<string>)
    ensures r == Some(MensajeCampos) <==> !Completo(nombre, email, password, confirmPassword)
    ensures r == Some(MensajeNoCoinciden) <==> Completo(nombre, email, password, confirmPassword) && password != confirmPassword
    ensures r == Some(MensajeCorta) <==>
      Completo(nombre, email, password, confirmPassword) && password == confirmPassword && |password| < LargoMinimo
    ensures r.None? <==>
      Completo(nombre, email, password, confirmPassword) && password == confirmPassword && |password| >= LargoMinimo
  {
    if !Completo(nombre, email, password, confirmPassword) then Some(MensajeCampos)
    else if password != confirmPassword then Some(MensajeNoCoinciden)
    else if |password| < LargoMinimo then Some(MensajeCorta)
    else None
  }

  /** An accepted form has a password of at least 6 characters that the user typed twice. */
  lemma AceptadoImplica(nombre: string, email: string, password: string, confirmPassword: string)
    requires ValidarRegistro(nombre, email, password, confirmPassword).None?
    ensures password == confirmPassword && |password| >= LargoMinimo && nombre != [] && email != []
  {
  }

  /** Only the first failing check is reported: an empty field hides a mismatch, and a
      mismatch hides a short password. */
  lemma PrimerErrorGana(nombre: string, email: string, password: string, confirmPassword: string)
    ensures nombre == [] ==> ValidarRegistro(nombre, email, password, confirmPassword) == Some(MensajeCampos)
    ensures Completo(nombre, email, password, confirmPassword) && password != confirmPassword && |password| < LargoMinimo
      ==> ValidarRegistro(nombre, email, password, confirmPassword) == Some(MensajeNoCoinciden)
  {
  }

  class RegisterPage {
    var nombre: string
    var email: string
    var password: string
    var confirmPassword: string
    var loading: bool
    var error: string
    /** The calls made to the sign-up action, oldest first. */
    var altas: seq<Alta>

    constructor ()
      ensures nombre == "" && email == "" && password == "" && confirmPassword == ""
      ensures !loading && error == "" && altas == []
    {
      nombre := "";
      email := "";
      password := "";
      confirmPassword := "";
      loading := false;
      error := "";
      altas := [];
    }

    /** `handleSubmit`. `signupFalla` says whether the sign-up action throws; then the
        handler ends there and `loading` is never reset. */
    method HandleSubmit(signupFalla: bool)
      modifies this
      ensures nombre == old(nombre) && email == old(email)
      ensures password == old(password) && confirmPassword == old(confirmPassword)
      ensures var v := ValidarRegistro(nombre, email, password, confirmPassword);
        && (v.Some? ==> error == v.value && !loading && altas == old(altas))
        && (v.None? ==> error == "" && altas == old(altas) + [Alta(nombre, email, password)] && loading == signupFalla)
    {
      error := "";
      loading := true;
      var formData := Alta(nombre, email, password);
      if !Completo(nombre, email, password, confirmPassword) {
        error := MensajeCampos;
        loading := false;
        return;
      }
      if password != confirmPassword {
        error := MensajeNoCoinciden;
        loading := false;
        return;
      }
      if |password| < LargoMinimo {
        error := MensajeCorta;
        loading := false;
        return;
      }
      altas := altas + [formData];
      if signupFalla {
        return;
      }
      loading := false;
    }
  }
}
