/** The in-memory stand-in for the generator repository used by tests: two
    slots, the result every password generation returns and the saved
    generation options, each overwritten by its setters. The request and
    options types belong to a library outside this model and are type
    parameters here. */
module Generator {

  datatype Option<T> = None | Some(value: T)

  /** Outcome of a password generation. Only `Success` is used by the fake;
      `Failure` stands for the library's other outcomes. */
  datatype GeneratedPasswordResult = Success(generatedString: string) | Failure(reason: string)

  /** The result a fresh fake hands out. */
  const DefaultResult: GeneratedPasswordResult := Success("updatedText")

  class FakeGeneratorRepository<PasswordGeneratorRequest, PasswordGenerationOptions> {
    var generatePasswordResult: GeneratedPasswordResult
    var passwordGenerationOptions: Option<PasswordGenerationOptions>

    constructor ()
      ensures generatePasswordResult == DefaultResult
      ensures passwordGenerationOptions == None
    {
      generatePasswordResult := DefaultResult;
      passwordGenerationOptions := None;
    }

    /** Ignores the request and hands out the configured result; neither slot
        changes (the method has no `modifies` clause). */
    method GeneratePassword(request: PasswordGeneratorRequest) returns (result: GeneratedPasswordResult)
      ensures result == generatePasswordResult
    {
      result := generatePasswordResult;
    }

    /** The options last stored, or `None` when none are. */
    method GetPasswordGenerationOptions() returns (options: Option<PasswordGenerationOptions>)
      ensures options == passwordGenerationOptions
    {
      options := passwordGenerationOptions;
    }

    method SavePasswordGenerationOptions(options: PasswordGenerationOptions)
      modifies this
      ensures passwordGenerationOptions == Some(options)
      ensures generatePasswordResult == old(generatePasswordResult)
    {
      passwordGenerationOptions := Some(options);
    }

    method SetMockGeneratePasswordResult(result: GeneratedPasswordResult)
      modifies this
      ensures generatePasswordResult == result
      ensures passwordGenerationOptions == old(passwordGenerationOptions)
    {
      generatePasswordResult := result;
    }

    method SetMockGeneratePasswordGenerationOptions(options: Option<PasswordGenerationOptions>)
      modifies this
      ensures passwordGenerationOptions == options
      ensures generatePasswordResult == old(generatePasswordResult)
    {
      passwordGenerationOptions := options;
    }
  }

  /** A fresh fake has no options and generates the default result for any
      request. */
  method FreshRepository<R, O>(first: R, second: R)
    returns (options: Option<O>, result1: GeneratedPasswordResult, result2: GeneratedPasswordResult)
    ensures options == None
    ensures result1 == Success("updatedText") && result2 == Success("updatedText")
  {
    var repository := new FakeGeneratorRepository<R, O>();
    options := repository.GetPasswordGenerationOptions();
    result1 := repository.GeneratePassword(first);
    result2 := repository.GeneratePassword(second);
  }

  /** Saved options are read back, and the last save wins. */
  method SaveThenGet<R, O>(first: O, second: O, request: R)
    returns (afterFirst: Option<O>, afterSecond: Option<O>, result: GeneratedPasswordResult)
    ensures afterFirst == Some(first)
    ensures afterSecond == Some(second)
    ensures result == DefaultResult
  {
    var repository := new FakeGeneratorRepository<R, O>();
    repository.SavePasswordGenerationOptions(first);
    afterFirst := repository.GetPasswordGenerationOptions();
    repository.SavePasswordGenerationOptions(second);
    afterSecond := repository.GetPasswordGenerationOptions();
    result := repository.GeneratePassword(request);
  }

  /** One sequence of calls: each generation returns the result configured
      last, whatever the request and after both kinds of write to the options
      slot. The general fact comes from the frame clauses of the setters and
      from `GeneratePassword` changing nothing. */
  method MockResultPersists<R, O>(configured: GeneratedPasswordResult, next: GeneratedPasswordResult,
                                  first: R, second: R, options: O)
    returns (result1: GeneratedPasswordResult, result2: GeneratedPasswordResult,
             result3: GeneratedPasswordResult, saved: Option<O>)
    ensures result1 == configured && result2 == configured
    ensures result3 == next
    ensures saved == Some(options)
  {
    var repository := new FakeGeneratorRepository<R, O>();
    repository.SavePasswordGenerationOptions(options);
    repository.SetMockGeneratePasswordResult(configured);
    result1 := repository.GeneratePassword(first);
    repository.SetMockGeneratePasswordGenerationOptions(None);
    repository.SavePasswordGenerationOptions(options);
    result2 := repository.GeneratePassword(second);
    repository.SetMockGeneratePasswordResult(next);
    result3 := repository.GeneratePassword(first);
    saved := repository.GetPasswordGenerationOptions();
  }

  /** Setting the mock options to `None` empties the slot again. */
  method ClearOptions<R, O>(options: O) returns (before: Option<O>, after: Option<O>)
    ensures before == Some(options)
    ensures after == None
  {
    var repository := new FakeGeneratorRepository<R, O>();
    repository.SavePasswordGenerationOptions(options);
    before := repository.GetPasswordGenerationOptions();
    repository.SetMockGeneratePasswordGenerationOptions(None);
    after := repository.GetPasswordGenerationOptions();
  }

  /** Saving options and setting them as mock options have the same effect on
      both slots. */
  method SaveMatchesSetMock<R, O>(options: O, result: GeneratedPasswordResult, request: R)
    returns (saved: Option<O>, mocked: Option<O>,
             savedResult: GeneratedPasswordResult, mockedResult: GeneratedPasswordResult)
    ensures saved == mocked == Some(options)
    ensures savedResult == mockedResult == result
  {
    var a := new FakeGeneratorRepository<R, O>();
    var b := new FakeGeneratorRepository<R, O>();
    a.SetMockGeneratePasswordResult(result);
    b.SetMockGeneratePasswordResult(result);
    a.SavePasswordGenerationOptions(options);
    b.SetMockGeneratePasswordGenerationOptions(Some(options));
    saved := a.GetPasswordGenerationOptions();
    mocked := b.GetPasswordGenerationOptions();
    savedResult := a.GeneratePassword(request);
    mockedResult := b.GeneratePassword(request);
  }
}
