/**
 * The n8n settings form: the instance URL and API key, a connection test that must pass before
 * the settings can be saved, and the messages it shows.  Each request handler is split at its
 * `await` into a start and a finish; the outcome of the request is an input.  Input on a
 * disabled field or a click on a disabled button does nothing.
 */
module N8nConnectionForm {
  import opened Wrappers
  import opened Text

  /** How a request ended: an ok response, a rejected one with the `error` it carried, or an exception. */
  datatype Outcome = Ok | Rejected(error: Option<string>) | Threw

  /** The body of both requests. */
  datatype Settings = Settings(n8nUrl: string, n8nApiKey: string)

  const TestFailedMsg := "Connection test failed"
  const TestThrewMsg := "Failed to test connection"
  const TestOkMsg := "Connection successful!"
  const SaveFailedMsg := "Failed to save settings"
  const SaveOkMsg := "Settings saved successfully!"

  /** Only whitespace, which is what `trim()` removes entirely. */
  predicate Blank(s: string) {
    forall i :: 0 <= i < |s| ==> IsSpace(s[i])
  }

  /** Neither the URL nor the key is blank. */
  predicate Filled(url: string, key: string) {
    !Blank(url) && !Blank(key)
  }

  /** `canTest` as written, with `trim()`, is the same condition. */
  lemma FilledIsTrimmed(url: string, key: string)
    ensures Filled(url, key) <==> Trim(url) != "" && Trim(key) != ""
  {
    TrimEmpty(url);
    TrimEmpty(key);
  }

  /** `isConnected`: a key is stored and a host is known. */
  predicate IsConnected(hasExistingKey: bool, initialHost: string) {
    hasExistingKey && |initialHost| > 0
  }

  class Form {
    const initialHost: string
    const hasExistingKey: bool
    var n8nUrl: string
    var n8nApiKey: string
    var error: string
    var success: string
    var isTesting: bool
    var isSaving: bool
    var testPassed: bool

    /**
     * A test or a save is under way, never both; a test is only under way, and only counts as
     * passed, for a URL and key that are not blank.
     */
    ghost predicate Valid()
      reads this
    {
      && !(isTesting && isSaving)
      && (isTesting ==> Filled(n8nUrl, n8nApiKey))
      && (testPassed ==> Filled(n8nUrl, n8nApiKey) && !isTesting)
    }

    constructor(initialHost: string, hasExistingKey: bool)
      ensures this.initialHost == initialHost && this.hasExistingKey == hasExistingKey
      ensures n8nUrl == initialHost && n8nApiKey == "" && error == "" && success == ""
      ensures !isTesting && !isSaving && !testPassed
      ensures Valid()
    {
      this.initialHost := initialHost;
      this.hasExistingKey := hasExistingKey;
      n8nUrl := initialHost;
      n8nApiKey := "";
      error := "";
      success := "";
      isTesting := false;
      isSaving := false;
      testPassed := false;
    }

    /** `canTest`: neither field is blank. */
    predicate CanTest()
      reads this
    {
      Filled(n8nUrl, n8nApiKey)
    }

    /** `canSave`. */
    predicate CanSave()
      reads this
    {
      testPassed
    }

    predicate InputsEnabled()
      reads this
    {
      !isTesting && !isSaving
    }

    predicate TestEnabled()
      reads this
    {
      CanTest() && !isTesting && !isSaving
    }

    predicate SaveEnabled()
      reads this
    {
      CanSave() && !isSaving
    }

    /** Typing in the URL field: the URL changes and a passed test no longer counts. */
    method EditUrl(text: string)
      requires Valid()
      modifies this
      ensures Valid()
      ensures old(InputsEnabled()) ==> n8nUrl == text && !testPassed
      ensures !old(InputsEnabled()) ==> n8nUrl == old(n8nUrl) && testPassed == old(testPassed)
      ensures n8nApiKey == old(n8nApiKey) && error == old(error) && success == old(success)
      ensures isTesting == old(isTesting) && isSaving == old(isSaving)
    {
      if InputsEnabled() {
        n8nUrl := text;
        testPassed := false;
      }
    }

    /** Typing in the key field: the key changes and a passed test no longer counts. */
    method EditKey(text: string)
      requires Valid()
      modifies this
      ensures Valid()
      ensures old(InputsEnabled()) ==> n8nApiKey == text && !testPassed
      ensures !old(InputsEnabled()) ==> n8nApiKey == old(n8nApiKey) && testPassed == old(testPassed)
      ensures n8nUrl == old(n8nUrl) && error == old(error) && success == old(success)
      ensures isTesting == old(isTesting) && isSaving == old(isSaving)
    {
      if InputsEnabled() {
        n8nApiKey := text;
        testPassed := false;
      }
    }

    /** The start of `handleTest`: messages and the passed flag cleared, the test under way. */
    method StartTest() returns (request: Option<Settings>)
      requires Valid()
      modifies this
      ensures Valid()
      ensures old(TestEnabled()) ==>
                request == Some(Settings(n8nUrl, n8nApiKey)) && error == "" && success == ""
                && !testPassed && isTesting
      ensures !old(TestEnabled()) ==>
                request.None? && error == old(error) && success == old(success)
                && testPassed == old(testPassed) && isTesting == old(isTesting)
      ensures n8nUrl == old(n8nUrl) && n8nApiKey == old(n8nApiKey) && isSaving == old(isSaving)
    {
      if !TestEnabled() {
        return None;
      }
      error := "";
      success := "";
      testPassed := false;
      isTesting := true;
      request := Some(Settings(n8nUrl, n8nApiKey));
    }

    /**
     * The end of `handleTest`: only an ok response passes the test; a rejection shows its error,
     * or a default message, and an exception its own message.  The test is over either way.
     */
    method FinishTest(outcome: Outcome)
      requires Valid() && isTesting
      modifies this
      ensures Valid()
      ensures !isTesting
      ensures testPassed <==> outcome.Ok?
      ensures outcome.Ok? ==> success == TestOkMsg && error == old(error)
      ensures outcome.Rejected? ==> error == outcome.error.GetOr(TestFailedMsg) && success == old(success)
      ensures outcome.Threw? ==> error == TestThrewMsg && success == old(success)
      ensures n8nUrl == old(n8nUrl) && n8nApiKey == old(n8nApiKey) && isSaving == old(isSaving)
    {
      match outcome {
        case Ok =>
          success := TestOkMsg;
          testPassed := true;
        case Rejected(e) =>
          error := e.GetOr(TestFailedMsg);
        case Threw =>
          error := TestThrewMsg;
      }
      isTesting := false;
    }

    /** The start of `handleSave`: messages cleared, the save under way. */
    method StartSave() returns (request: Option<Settings>)
      requires Valid()
      modifies this
      ensures Valid()
      ensures old(SaveEnabled()) ==>
                request == Some(Settings(n8nUrl, n8nApiKey)) && error == "" && success == "" && isSaving
      ensures !old(SaveEnabled()) ==>
                request.None? && error == old(error) && success == old(success) && isSaving == old(isSaving)
      ensures request.Some? ==> Filled(request.value.n8nUrl, request.value.n8nApiKey)
      ensures n8nUrl == old(n8nUrl) && n8nApiKey == old(n8nApiKey)
      ensures testPassed == old(testPassed) && isTesting == old(isTesting)
    {
      if !SaveEnabled() {
        return None;
      }
      request := Some(Settings(n8nUrl, n8nApiKey));
      error := "";
      success := "";
      isSaving := true;
    }

    /**
     * The end of `handleSave`: an ok response clears the key and the passed test, so another
     * save needs another test; a failure shows its message.  The save is over either way.
     */
    method FinishSave(outcome: Outcome)
      requires Valid() && isSaving
      modifies this
      ensures Valid()
      ensures !isSaving
      ensures outcome.Ok? ==> success == SaveOkMsg && n8nApiKey == "" && !testPassed && error == old(error)
      ensures outcome.Rejected? ==>
                error == outcome.error.GetOr(SaveFailedMsg) && success == old(success)
                && n8nApiKey == old(n8nApiKey) && testPassed == old(testPassed)
      ensures outcome.Threw? ==>
                error == SaveFailedMsg && success == old(success)
                && n8nApiKey == old(n8nApiKey) && testPassed == old(testPassed)
      ensures n8nUrl == old(n8nUrl) && isTesting == old(isTesting)
    {
      match outcome {
        case Ok =>
          success := SaveOkMsg;
          n8nApiKey := "";
          testPassed := false;
        case Rejected(e) =>
          error := e.GetOr(SaveFailedMsg);
        case Threw =>
          error := SaveFailedMsg;
      }
      isSaving := false;
    }
  }

  /** A whole test: ends idle, and passed exactly when the response was ok. */
  method HandleTest(form: Form, outcome: Outcome) returns (request: Option<Settings>)
    requires form.Valid()
    modifies form
    ensures form.Valid() && (!old(form.isTesting) ==> !form.isTesting)
    ensures request.Some? <==> old(form.TestEnabled())
    ensures request.Some? ==> (form.testPassed <==> outcome.Ok?) && form.CanTest()
    ensures request.None? ==> form.testPassed == old(form.testPassed)
  {
    request := form.StartTest();
    if request.Some? {
      form.FinishTest(outcome);
    }
  }

  /** After a successful save the save button stays disabled until a new test passes. */
  method HandleSave(form: Form, outcome: Outcome) returns (request: Option<Settings>)
    requires form.Valid()
    modifies form
    ensures form.Valid() && (!old(form.isSaving) ==> !form.isSaving)
    ensures request.Some? <==> old(form.SaveEnabled())
    ensures request.Some? ==> Filled(request.value.n8nUrl, request.value.n8nApiKey)
    ensures request.Some? && outcome.Ok? ==> !form.SaveEnabled() && !form.CanTest()
  {
    request := form.StartSave();
    if request.Some? {
      form.FinishSave(outcome);
      if outcome.Ok? {
        assert Blank(form.n8nApiKey);
      }
    }
  }
}
