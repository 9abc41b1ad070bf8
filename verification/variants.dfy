/** How the versions of the same toy in different scripts relate. */
module Variants {
  import opened PyBase
  import GeminiExp
  import GeminiExpV2
  import Augment
  import Grok3

  /** `first` (grok-3.py) and `get_first` (gemini-2.5-Pro-Exp-V2.py) agree
      on every non-empty list; on the empty list one raises IndexError where
      the other returns None. */
  lemma FirstMatchesGetFirst<T>(container: seq<T>)
    ensures Grok3.First(container).Ok? <==> GeminiExpV2.GetFirst(container).Some?
    ensures Grok3.First(container).Ok? ==>
              Grok3.First(container).value == GeminiExpV2.GetFirst(container).value
  {
  }

  /** The two `Temperature` setters accept exactly the same values and
      store them unchanged; only their error messages differ. */
  lemma TemperatureSettersAgree(c: real, value: real)
    ensures GeminiExp.SetCelsius(GeminiExp.Temperature(c), value).Ok? <==>
            GeminiExpV2.SetCelsius(GeminiExpV2.Temperature(c), value).Ok?
    ensures GeminiExp.SetCelsius(GeminiExp.Temperature(c), value).Ok? ==>
              GeminiExp.SetCelsius(GeminiExp.Temperature(c), value).value.celsius ==
              GeminiExpV2.SetCelsius(GeminiExpV2.Temperature(c), value).value.celsius
  {
  }

  /** On any two accounts with equal balances, the two
      `BankAccount.deposit` methods change the balance identically and each
      logs exactly when the other one does. */
  lemma DepositsAgree(a1: GeminiExp.BankAccount, a2: GeminiExpV2.BankAccount, amount: real)
    requires a1.balance == a2.balance
    ensures GeminiExp.Deposit(a1, amount).balance == GeminiExpV2.Deposit(a2, amount).balance
    ensures |GeminiExp.Deposit(a1, amount).log| - |a1.log| ==
            |GeminiExpV2.Deposit(a2, amount).log| - |a2.log|
  {
  }

  /** `check_age` and `validate_age` both reject negative ages with
      ValueError and both accept every age from 18 to 150; they disagree on
      minors (PermissionError) and on ages above 150 (CustomError). */
  lemma AgeCheckersAgree(age: int)
    ensures GeminiExp.CheckAge(age).Raise? && GeminiExp.CheckAge(age).error.ValueError? <==>
            Augment.ValidateAge(age).Raise? && Augment.ValidateAge(age).error.ValueError?
    ensures 18 <= age <= 150 ==> GeminiExp.CheckAge(age).Ok? && Augment.ValidateAge(age).Ok?
  {
  }
}
