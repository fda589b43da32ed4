/**
 * Client walks through the controller, proved from the handlers' contracts
 * alone: registration and login, the reset-token life cycle, and promotion.
 */
module Scenarios {
  import opened Wrappers
  import opened JsText
  import opened HexEncoding
  import opened Credentials
  import opened UserModel
  import opened UserController

  /** Register, register again with the same email, then log in wrongly and rightly. */
  method RegisterAndLogin() {
    var c := new Controller(Config(None));
    var alice := UserInput(None, None, Some("Alice"), Some("a@x.com"), Some("secret1"), None);
    var r := c.RegisterUser(alice, 1);
    assert r.success;
    var id := 0;
    assert c.accounts[id].email == Some("a@x.com");

    // a second registration with the same email fails whatever else differs
    r := c.RegisterUser(alice.(name := Some("Bob"), password := Some("other")), 2);
    assert r == Fail("User already exists");

    r := c.LoginUser(Some("a@x.com"), Some("wrong"), 5000);
    assert r == Fail("Incorrect password");

    r := c.LoginUser(Some("a@x.com"), Some("secret1"), 5000);
    assert r.success && r.data.LoggedIn?;
    assert r.data.token.id == id && !r.data.token.isAdmin && !r.data.user.isAdmin;

    r := c.LoginUser(Some("b@x.com"), Some("secret1"), 5000);
    assert r == Fail("User not found");
  }

  /** A controller holding one account, `a@x.com` with password `secret1`, id 0. */
  method WithAlice() returns (c: Controller)
    ensures fresh(c) && c.Valid()
    ensures c.accounts.Keys == {0} && c.accounts[0].email == Some("a@x.com")
    ensures Compare("secret1", c.accounts[0].passwordHash)
    ensures c.accounts[0].resetPasswordToken.None?
  {
    c := new Controller(Config(None));
    var alice := UserInput(None, None, Some("Alice"), Some("a@x.com"), Some("secret1"), None);
    var r := c.RegisterUser(alice, 1);
    assert r.success;
  }

  /** Alice after asking for a reset at `t`: she holds the hex token until `t` + 1 h. */
  method AliceWithToken(random: seq<byte>, t: nat) returns (c: Controller, token: string)
    requires |random| == ResetTokenBytes
    ensures fresh(c) && c.Valid()
    ensures c.accounts.Keys == {0} && c.accounts[0].email == Some("a@x.com")
    ensures Compare("secret1", c.accounts[0].passwordHash)
    ensures token == HexEncode(random)
    ensures c.accounts[0].resetPasswordToken == Some(token)
    ensures c.accounts[0].resetPasswordExpires == Some(t + ResetWindow)
  {
    c := WithAlice();
    var r := c.ForgotPassword(Some("a@x.com"), random, t, true);
    assert r.success;
    token := HexEncode(random);
  }

  /** A reset token issued at `t` is refused one hour later. */
  method ExpiredTokenRefused(random: seq<byte>, t: nat)
    requires |random| == ResetTokenBytes
  {
    var c, token := AliceWithToken(random, t);
    assert c.Holders(token, t + ResetWindow) == {};
    var r := c.ResetPassword(token, Some("newpass2"), t + ResetWindow, 2);
    assert r == Fail("Token invalid or expired");
  }

  /** Inside its hour the token resets the password once; a replay fails. */
  method TokenUsedOnce(random: seq<byte>, t: nat)
    requires |random| == ResetTokenBytes
  {
    var c, token := AliceWithToken(random, t);
    var now := t + 60000;
    assert c.Holders(token, now) == {0};
    var r := c.ResetPassword(token, Some("newpass2"), now, 2);
    assert r.success;
    assert c.Holders(token, now) == {};
    r := c.ResetPassword(token, Some("newpass3"), now, 3);
    assert r == Fail("Token invalid or expired");
  }

  /** After the reset the old password no longer logs in and the new one does. */
  method PasswordReplaced(random: seq<byte>, t: nat)
    requires |random| == ResetTokenBytes
  {
    var c, token := AliceWithToken(random, t);
    var now := t + 60000;
    assert 0 in c.Holders(token, now);
    var r := c.ResetPassword(token, Some("newpass2"), now, 2);
    assert c.accounts.Keys == {0} && c.accounts[0].email == Some("a@x.com");
    assert c.accounts[0].passwordHash == Hash("newpass2", 2);
    r := c.LoginUser(Some("a@x.com"), Some("secret1"), now);
    assert r == Fail("Incorrect password");
    r := c.LoginUser(Some("a@x.com"), Some("newpass2"), now);
    assert r.success;
  }

  /** The wrong key is refused before the lookup; the right one promotes. */
  method PromoteThenLogin() {
    var c := new Controller(Config(Some("k3y")));
    var alice := UserInput(None, None, Some("Alice"), Some("a@x.com"), Some("secret1"), None);
    var r := c.RegisterUser(alice, 1);
    assert r.success;
    var id := 0;
    assert c.accounts[id].email == Some("a@x.com");

    r := c.PromoteUser(Some("wrong-secret"), None, Some("a@x.com"));
    assert r == Fail("Unauthorized");
    r := c.PromoteUser(Some("wrong-secret"), None, Some("nobody@x.com"));
    assert r == Fail("Unauthorized");

    r := c.PromoteUser(None, Some("k3y"), Some("a@x.com"));
    assert r == Done("User promoted to admin");

    r := c.LoginUser(Some("a@x.com"), Some("secret1"), 0);
    assert r.success && r.data.token.isAdmin;
  }
}
