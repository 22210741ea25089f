/**
 * `ory auth`: the yes/no dispatch over the prompts, the answers written to the CLI's
 * pseudo-terminal, and the reaction to each chunk the terminal prints (already stripped of
 * ANSI escapes).
 */
module OryAuth {
  import opened Wrappers
  import opened JsText
  import opened Helper

  datatype Platform = Win32 | OtherPlatform

  /** The key that ends an answer: carriage return on win32, line feed elsewhere. */
  function VirtualEnter(platform: Platform): (r: string)
    ensures |r| == 1 && (r == "\r" <==> platform == Win32) && (r == "\n" <==> platform != Win32)
  {
    if platform == Win32 then "\r" else "\n"
  }

  /** The answers written in order: yes/no, email, password, and the registration three only for `n`. */
  function Script(yN: string, email: string, password: string, name: string, updates: string, terms: string, enter: string): seq<string>
  {
    [yN + enter, email + enter, password + enter]
      + (if yN == "n" then [name + enter, updates + enter, terms + enter] else [])
  }

  /** The script always opens with the three sign-in answers and adds three more only for exactly `n`. */
  lemma ScriptShape(yN: string, email: string, password: string, name: string, updates: string, terms: string, enter: string)
    ensures var s := Script(yN, email, password, name, updates, terms, enter);
      && |s| == (if yN == "n" then 6 else 3)
      && s[..3] == [yN + enter, email + enter, password + enter]
      && (yN == "n" ==> s[3..] == [name + enter, updates + enter, terms + enter])
      && forall k :: 0 <= k < |s| ==> |s[k]| >= |enter| && s[k][|s[k]| - |enter|..] == enter
  {
    var s := Script(yN, email, password, name, updates, terms, enter);
    forall k | 0 <= k < |s| ensures |s[k]| >= |enter| && s[k][|s[k]| - |enter|..] == enter {
      var answer := if k < 3 then [yN, email, password][k] else [name, updates, terms][k - 3];
      assert s[k] == answer + enter;
      assert (answer + enter)[|answer|..] == enter;
    }
  }

  const AuthenticationCode := "Authentication code"
  const SignedInPrefix := "You are now signed in as: "
  const SignInFailed := "Your sign in attempt failed"
  const SignInFailedMessage := "Your sign in attempt failed. Please try again!The provided credentials are invalid, check for spelling mistakes in your password or username, email address, or phone number."
  const RegistrationFailed := "Your account creation attempt failed"

  /** The message shown after a successful sign-in. */
  function SignedInMessage(email: string): string
  {
    SignedInPrefix + email + "\U{1F389}"
  }

  /**
   * The registration error: the chunk's second line with its first enter character removed;
   * `None` when there is no second line, where the handler throws before showing anything.
   */
  function RegistrationError(data: string, enter: string): (r: Option<string>)
    ensures r.None? <==> |Split(data, '\n')| < 2
    ensures r.Some? && enter == "\n" ==> r.value == Split(data, '\n')[1]
    ensures r.Some? ==> '\n' !in r.value
  {
    var lines := Split(data, '\n');
    if |lines| < 2 then None
    else
      SplitPiecesFree(data, '\n');
      ReplaceFirstAvoids(lines[1], enter, "", '\n');
      AbsentNotContained(lines[1], '\n');
      Some(ReplaceFirst(lines[1], enter, ""))
  }

  /** What one chunk of terminal output leads to. */
  datatype Reaction = Reaction(writes: seq<string>, effects: seq<Effect>, kill: bool)

  /**
   * The handler for one chunk: an authentication-code prompt writes the code (a cancelled code
   * ends the handler); then success, sign-in failure (which kills the terminal) and
   * registration failure are recognised independently. Both failures show an error box whose
   * Retry button runs the sign-in command again.
   */
  function DataReaction(data: string, email: string, enter: string, totp: Option<string>): Reaction
  {
    if Contains(data, AuthenticationCode) && totp.None? then Reaction([], [], false)
    else
      var writes := if Contains(data, AuthenticationCode) then [totp.value + enter] else [];
      var success := if Contains(data, SignedInPrefix + email) then [ShowInfo(SignedInMessage(email))] else [];
      var failed := Contains(data, SignInFailed);
      var failure := if failed then [OfferRetry(SignInFailedMessage)] else [];
      var registration :=
        if Contains(data, RegistrationFailed) && RegistrationError(data, enter).Some?
        then [OfferRetry(RegistrationError(data, enter).value)] else [];
      Reaction(writes, success + failure + registration, failed)
  }

  /** A cancelled authentication code silences the whole chunk. */
  lemma TotpCancelStops(data: string, email: string, enter: string)
    requires Contains(data, AuthenticationCode)
    ensures DataReaction(data, email, enter, None) == Reaction([], [], false)
  {
  }

  /**
   * Unless a cancelled code ends the handler, success is announced exactly when the output
   * names the same email, and the terminal is killed exactly when the sign-in failed. Every
   * message is either the success notice or a failure box offering a retry; a registration
   * failure offers a retry with the output's second line, and without one offers nothing.
   */
  lemma ReactionClassification(data: string, email: string, enter: string, totp: Option<string>)
    requires !(Contains(data, AuthenticationCode) && totp.None?)
    ensures var r := DataReaction(data, email, enter, totp);
      && (ShowInfo(SignedInMessage(email)) in r.effects <==> Contains(data, SignedInPrefix + email))
      && (r.kill <==> Contains(data, SignInFailed))
      && (Contains(data, SignInFailed) ==> OfferRetry(SignInFailedMessage) in r.effects)
      && (forall x :: x in r.effects ==> x.ShowInfo? || x.OfferRetry?)
      && (Contains(data, RegistrationFailed) && RegistrationError(data, enter).Some? ==>
            OfferRetry(RegistrationError(data, enter).value) in r.effects)
      && ((!Contains(data, RegistrationFailed) || RegistrationError(data, enter).None?) ==>
            forall x :: x in r.effects && x.OfferRetry? ==> x == OfferRetry(SignInFailedMessage))
      && (r.writes == if Contains(data, AuthenticationCode) then [totp.value + enter] else [])
  {
    var r := DataReaction(data, email, enter, totp);
    var registration :=
      if Contains(data, RegistrationFailed) && RegistrationError(data, enter).Some?
      then [OfferRetry(RegistrationError(data, enter).value)] else [];
    assert forall x :: x in registration ==> x.OfferRetry?;
  }

  /** The pseudo-terminal running `ory auth`: what has been written to it, and whether it was killed. */
  class PtySession {
    const enter: string
    const email: string
    var written: seq<string>
    var killed: bool

    constructor(enter: string, email: string)
      ensures this.enter == enter && this.email == email
      ensures written == [] && !killed
    {
      this.enter := enter;
      this.email := email;
      written := [];
      killed := false;
    }

    method Write(text: string)
      modifies this
      ensures written == old(written) + [text] && killed == old(killed)
    {
      written := written + [text];
    }

    method Kill()
      modifies this
      ensures killed && written == old(written)
    {
      killed := true;
    }

    /** `onData`: the writes and the kill go to the terminal, the messages are returned. */
    method OnData(data: string, totp: Option<string>) returns (effects: seq<Effect>)
      modifies this
      ensures written == old(written) + DataReaction(data, email, enter, totp).writes
      ensures killed == (old(killed) || DataReaction(data, email, enter, totp).kill)
      ensures effects == DataReaction(data, email, enter, totp).effects
    {
      effects := [];
      if Contains(data, AuthenticationCode) {
        if totp.None? {
          return;
        }
        Write(totp.value + enter);
      }
      ghost var success := if Contains(data, SignedInPrefix + email) then [ShowInfo(SignedInMessage(email))] else [];
      ghost var failure := if Contains(data, SignInFailed) then [OfferRetry(SignInFailedMessage)] else [];
      if Contains(data, SignedInPrefix + email) {
        effects := effects + [ShowInfo(SignedInMessage(email))];
      }
      assert effects == success;
      if Contains(data, SignInFailed) {
        effects := effects + [OfferRetry(SignInFailedMessage)];
        Kill();
      }
      assert effects == success + failure;
      if Contains(data, RegistrationFailed) {
        var extractErrMsg := RegistrationError(data, enter);
        if extractErrMsg.None? {
          assert effects == success + failure + [];
          return;
        }
        effects := effects + [OfferRetry(extractErrMsg.value)];
      } else {
        assert effects == success + failure + [];
      }
    }
  }

  /** `oryAuthHelper`: opens the terminal and writes the scripted answers. */
  method OryAuthHelper(yNInput: string, emailInput: string, passwordInput: string, name: string,
                       securityUpdatesInput: string, termsOfServiceInput: string, virtualEnter: string)
    returns (ptyProcess: PtySession)
    ensures fresh(ptyProcess) && !ptyProcess.killed
    ensures ptyProcess.email == emailInput && ptyProcess.enter == virtualEnter
    ensures ptyProcess.written ==
      Script(yNInput, emailInput, passwordInput, name, securityUpdatesInput, termsOfServiceInput, virtualEnter)
  {
    ptyProcess := new PtySession(virtualEnter, emailInput);
    ptyProcess.Write(yNInput + virtualEnter);
    ptyProcess.Write(emailInput + virtualEnter);
    ptyProcess.Write(passwordInput + virtualEnter);
    if yNInput == "n" {
      ptyProcess.Write(name + virtualEnter);
      ptyProcess.Write(securityUpdatesInput + virtualEnter);
      ptyProcess.Write(termsOfServiceInput + virtualEnter);
    }
  }

  /**
   * `runOryAuth`: the answer is compared lower-cased; `y` signs in with email and password,
   * `n` registers with all five answers; a cancelled prompt or any other answer opens nothing.
   */
  method RunOryAuth(platform: Platform, yNInput: Option<string>, email: Option<string>, password: Option<string>,
                    name: Option<string>, updates: Option<string>, terms: Option<string>)
    returns (session: Option<PtySession>)
    ensures session.Some? <==> (yNInput.Some? && email.Some? && password.Some? &&
      (ToLower(yNInput.value) == "y" || (ToLower(yNInput.value) == "n" && name.Some? && updates.Some? && terms.Some?)))
    ensures session.Some? ==> fresh(session.value) && !session.value.killed
    ensures session.Some? && ToLower(yNInput.value) == "y" ==> (session.value.written ==
      Script(yNInput.value, email.value, password.value, "", "", "", VirtualEnter(platform)))
    ensures session.Some? && ToLower(yNInput.value) == "n" ==> (session.value.written ==
      Script(yNInput.value, email.value, password.value, name.value, updates.value, terms.value, VirtualEnter(platform)))
  {
    var virtualEnter := VirtualEnter(platform);
    if yNInput.None? {
      return None;
    }
    var answer := ToLower(yNInput.value);
    if answer == "y" {
      if email.None? || password.None? {
        return None;
      }
      var p := OryAuthHelper(yNInput.value, email.value, password.value, "", "", "", virtualEnter);
      session := Some(p);
    } else if answer == "n" {
      if email.None? || password.None? || name.None? || updates.None? || terms.None? {
        return None;
      }
      var p := OryAuthHelper(yNInput.value, email.value, password.value, name.value, updates.value, terms.value, virtualEnter);
      session := Some(p);
    } else {
      session := None;
    }
  }

  /** An upper-case `N` takes the registration branch, yet only the three sign-in answers are written. */
  lemma UppercaseNSendsThree(email: string, password: string, name: string, updates: string, terms: string, enter: string)
    ensures ToLower("N") == "n"
    ensures Script("N", email, password, name, updates, terms, enter) == ["N" + enter, email + enter, password + enter]
  {
    assert ToLower("N")[0] == LowerChar('N') == 'n';
  }

  const SignedOutMessage := "You signed out successfully \U{2639}\U{FE0F}"

  /** `runOryAuthLogout`: every stdout chunk of `ory auth logout` announces the sign-out. */
  function LogoutEffects(events: seq<ProcessEvent>): (r: seq<Effect>)
    ensures |r| == CountStdout(events)
    ensures forall x :: x in r ==> x == ShowInfo(SignedOutMessage)
  {
    if events == [] then []
    else LogoutEffects(events[..|events| - 1]) + (if events[|events| - 1].StdoutData? then [ShowInfo(SignedOutMessage)] else [])
  }

  function CountStdout(events: seq<ProcessEvent>): nat
  {
    if events == [] then 0 else CountStdout(events[..|events| - 1]) + (if events[|events| - 1].StdoutData? then 1 else 0)
  }
}
