// The validator cases the generator's acceptance tests exercise, with the
// rules the tags of the user-creation params produce: each one answers with
// the message the test expects.
module ApiGenCases {
  import opened Outcomes
  import opened GoStrings
  import opened GoStrconv
  import opened ApiGenRules
  import opened ApiGenRuntime

  /** `apivalidator:"min=0,max=128"` on Age int. */
  const AgeRules := Rules("age", false, true, 0, true, 128, [], "")
  const Age := Field("Age", "int", AgeRules)

  /** age=ten: "age must be int". */
  lemma AgeNotInt()
    ensures CheckField(Age, "ten") == Err(BadRequest("age must be int"))
  {
    AtoiRejects("ten", 1);
    assert Age.typeName == "int" && Age.rules.paramName == "age";
    assert "age" + " must be int" == "age must be int";
  }

  /** age=-1: "age must be >= 0". */
  lemma AgeTooSmall()
    ensures CheckField(Age, "-1") == Err(BadRequest("age must be >= 0"))
  {
    assert "-1"[1..] == "1";
    assert DigitsValue("1") == 1;
    assert Atoi("-1") == Some(-1);
    assert Itoa(0) == "0";
    assert Age.typeName == "int";
    assert "age" + " must be >= " + "0" == "age must be >= 0";
  }

  /** age=256: "age must be <= 128". */
  lemma AgeTooLarge()
    ensures CheckField(Age, "256") == Err(BadRequest("age must be <= 128"))
  {
    assert DigitsValue("256") == 256 by {
      assert "256"[..2] == "25" && "25"[..1] == "2";
    }
    assert Atoi("256") == Some(256);
    assert Itoa(128) == "128" by {
      assert Digits(1) == "1";
      assert Digits(12) == "12";
    }
    assert Age.typeName == "int";
    assert "age" + " must be <= " + "128" == "age must be <= 128";
  }

  /** `apivalidator:"required,min=10"` on Login string. */
  const LoginRules := Rules("login", true, true, 10, false, 0, [], "")
  const Login := Field("Login", "string", LoginRules)

  /** login=new_m: "login len must be >= 10". */
  lemma LoginTooShort()
    ensures CheckField(Login, "new_m") == Err(BadRequest("login" + " len must be >= " + "10"))
  {
    assert Itoa(10) == "10" by {
      assert Digits(1) == "1";
    }
    ByteLenAscii("new_m");
    assert Login.typeName == "string" && Effective(Login, "new_m") == "new_m";
  }

  /** min counts bytes, as Go's len does: eight Cyrillic letters are sixteen
      bytes, so login=абвгдежз meets min=10. */
  lemma CyrillicLoginPasses()
    ensures CheckField(Login, "абвгдежз") == Ok(StringValue("абвгдежз"))
  {
    ByteLenTwoByte("абвгдежз");
    assert Login.typeName == "string";
  }

  /** No login: "login must be not empty". */
  lemma LoginEmpty()
    ensures CheckField(Login, "") == Err(BadRequest("login must be not empty"))
  {
    assert Login.typeName == "string";
    assert "login" + " must be not empty" == "login must be not empty";
  }

  /** `apivalidator:"enum=user|moderator|admin,default=user"` on Status string. */
  const StatusRules := Rules("status", false, false, 0, false, 0, ["user", "moderator", "admin"], "user")
  const Status := Field("Status", "string", StatusRules)

  lemma JoinStatuses()
    ensures Join(["user", "moderator", "admin"], ", ") == "user, moderator, admin"
  {
    var roles := ["user", "moderator", "admin"];
    assert roles[1..][1..] == ["admin"];
    assert Join(roles[1..], ", ") == "moderator, admin";
  }

  lemma StatusMessage()
    ensures Message(Status, NotInEnum) == "status must be one of [user, moderator, admin]"
  {
    JoinStatuses();
    var head := "status" + " must be one of [";
    assert head == "status must be one of [";
    assert head + "user, moderator, admin" + "]" == "status must be one of [user, moderator, admin]";
  }

  /** status=adm: "status must be one of [user, moderator, admin]". */
  lemma StatusNotInEnum()
    ensures CheckField(Status, "adm") == Err(BadRequest("status must be one of [user, moderator, admin]"))
  {
    assert Effective(Status, "adm") == "adm";
    assert forall rule :: Rank(rule) < Rank(NotInEnum) ==> !Broken(Status, "adm", rule);
    CheckFieldFirstBroken(Status, "adm", NotInEnum);
    StatusMessage();
  }

  /** No status: the default "user" is taken and passes. */
  lemma StatusDefault()
    ensures CheckField(Status, "") == Ok(StringValue("user"))
  {
    assert Status.typeName == "string";
  }
}
