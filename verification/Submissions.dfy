// What Intake stores of an invoice (services/intake/models.py).
module Submissions {
  import opened Contracts

  datatype SubmissionStatus = Received | Processing | Completed | Failed

  datatype Submission = Submission(
    trackingId: string,
    invoice: Invoice,
    dedupKey: string,
    isDuplicate: bool,
    status: SubmissionStatus,
    decision: Option<Decision>,
    error: Option<string>)
}
