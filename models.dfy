/** The request and response records of the back end (backend/app/models.py). */
module Models {
  /** One customer as the prediction endpoint receives it. */
  datatype CustomerContext = CustomerContext(
    customerId: string,
    tenureMonths: int,
    monthlyCharges: real,
    totalCharges: real,
    numSupportTickets: int,
    dataUsageGb: real,
    paymentMethod: string,
    contractType: string)

  /** What a prediction endpoint answers. */
  datatype InterventionResponse = InterventionResponse(
    customerId: string,
    recommendedAction: string,
    riskScore: real,
    budgetAllocated: real,
    feasibilityStatus: string)

  /** The outcome of an intervention, reported to the feedback endpoint. */
  datatype FeedbackData = FeedbackData(
    customerId: string,
    actionTaken: string,
    reward: real)
}
