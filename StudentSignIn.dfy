/** The student sign-in form: three fields and a submit guarded by all of them. */
module StudentAuth {
  import opened Options

  /** What the form hands to `onSignIn`. */
  datatype Credentials = Credentials(email: string, password: string, college: string)

  class StudentSignIn {
    var email: string
    var password: string
    var college: string

    constructor ()
      ensures email == "" && password == "" && college == ""
    {
      email, password, college := "", "", "";
    }

    method SetEmail(value: string)
      modifies this`email
      ensures email == value
    {
      email := value;
    }

    method SetPassword(value: string)
      modifies this`password
      ensures password == value
    {
      password := value;
    }

    method SetCollege(value: string)
      modifies this`college
      ensures college == value
    {
      college := value;
    }

    /**
      * Signs in with exactly the three fields when all are filled in; otherwise
      * does nothing. The fields are left as they are either way.
      */
    method HandleSubmit() returns (signedIn: Option<Credentials>)
      ensures signedIn.Some? <==> email != "" && password != "" && college != ""
      ensures signedIn.Some? ==> signedIn.value == Credentials(email, password, college)
    {
      if email != "" && password != "" && college != "" {
        signedIn := Some(Credentials(email, password, college));
      } else {
        signedIn := None;
      }
    }
  }
}
