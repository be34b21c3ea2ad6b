/** The records the screens of the app pass to each other: bills, the onboarding
    answers, the signed-in identity and the subscription tier. */
module Records {

  datatype Option<+T> = None | Some(value: T)

  /** The subscription tier. */
  datatype Plan = Free | Pro | Premium

  /** The local calendar year and 0-based month of an instant. */
  datatype Stamp = Stamp(year: int, month: int)

  /** One electricity bill. `month` is the "YYYY-MM" period the user typed;
      `created` is when the record was made, which is what the free quota counts.
      `id` is opaque. */
  datatype Bill = Bill(id: string, month: string, consumption: real, value: real,
                       imageUrl: Option<string>, created: Stamp)

  /** The onboarding answers. */
  datatype QuizData = QuizData(completed: bool, appliances: seq<string>, houseSize: string, residents: int)

  /** The signed-in identity (no credential is ever checked against anything). */
  datatype User = User(email: string, name: string)

  /** Bills a free account may create per calendar month, as the upload guard enforces it. */
  const FreeMonthlyQuota: nat := 3
}
