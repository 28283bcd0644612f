/** Why something was refused, or why a call raised. */
module Reasons {

  const MAXIMUM_DIAGNOSTIC_CODEPOINTS: nat := 4096

  /** The text of a discrepancy or of a raised error. The adapter's own texts are constructors,
      so that distinct texts are distinct values; `Reported` carries text made elsewhere. */
  datatype Reason =
    | Reported(text: string)
    | Invalid(field: string)
    | NotificationSubstitution(substitutedField: string)
    | ResponseThreadIdentitySubstitution(responseMethod: string)
    | AcquisitionCutOccurrenceIdentitySubstitution
    | AdapterOperationFailed
    | AdmittedExecutionDeadlineElapsed
    | AppServerAbsentAtTerminalEvidenceBoundary
    | AppServerActivityFollowedCompletedTurn
    | AppServerDidNotExitAfterTerminate
    | AppServerDidNotQuiesce
    | AppServerEvidenceExceedsExactByteBound
    | AppServerFinalWaitFailed
    | AppServerMethodExceedsIdentityBound
    | AppServerMethodFrameMalformed
    | AppServerMethodIsNotAString
    | AppServerNotificationRefusedByBoundedQueue
    | AppServerOrderedClientRequestRefusedByBoundedQueue
    | AppServerOrderedEnvelopeRefusedByBoundedQueue
    | AppServerReaderAbsent
    | AppServerReaderDidNotReachEof
    | AppServerReaderEndedWithoutCleanEof
    | AppServerResponseRefusedByRetainedEventByteBound
    | AppServerResponseRefusedForUnknownRequest
    | AppServerResponseRefusedWithNonintegerRequest
    | AppServerServerRequestRefusedByBoundedQueue
    | AppServerStdoutFrameRefusedAsInvalidJson
    | AppServerStdoutFrameRefusedAsNonObject
    | AppServerStdoutFrameRefusedAsUnclassified
    | AppServerStdoutFrameRefusedByBoundedAcquisition
    | AppServerWriterLockDidNotQuiesce
    | ApprovalIdentitySubstitution
    | ApprovalRequestPrecededExactResponseCompletion
    | ApprovalRequestPrecededProviderAdmission
    | BoundedAgentDeltaLacksExactItemStart
    | BoundedAgentOutputCompletionLacksExactStart
    | BoundedCompletedAgentOutputExceedsDecodedByteBound
    | BoundedTurnEchoInputIsOutsideTheClosedShape
    | BoundedTurnEchoLacksExactThreadInput
    | BoundedTurnEchoPermitsOnlyOneSelectedInput
    | BoundedTurnInputIsOutsideTheClosedEchoShape
    | BoundedTurnSummaryLacksExactCompletedAgentItem
    | BoundedUserInputCompletionLacksExactStart
    | ClientRequestCustodyQueueRefusedBeforeSend
    | ClientRequestExceedsExactPreSendCustodyBound
    | ClientRequestLacksExactBoundedRequestMethod
    | ClientRequestMethodOrClosedShapeSubstitution
    | ClientRequestParamsAreNotAnObject
    | ClientRequestReturnedAnAppServerError
    | ClientRequestThreadIdentitySubstitution
    | ClientResponseHasNonClosedResultErrorShape
    | ClientResponseLacksExactBoundedRequestMethod
    | ClientResponseRequestIdentityOrMethodSubstitution
    | ClientResponseResultIsNotAnObject
    | ClosedProviderNotificationFieldsDoNotMatch
    | ClosedResponseCompletedFieldsDoNotMatch
    | CoarseOrUnclassifiedAppServerErrorCannotEstablishAdmission
    | DuplicateAppServerResponseRefused
    | DuplicateBoundedAgentOutputStart
    | DuplicateBoundedUserInputLifecycleEvent
    | DuplicateBoundedUserInputStart
    | DuplicateClientRequestIdentity
    | DuplicateProviderRequestOccurrenceIdentity
    | DuplicateUpstreamResponseIdentity
    | ExactAppServerEvidenceLacksLineTerminator
    | ExactAppServerWireBytesAreRequired
    | ExactAppServerWireBytesLackLineTerminator
    | FixtureClientRequestIsNotPermittedForACampaignCodexBuild
    | InvalidAcquisitionCutLossGeneration
    | InvalidAcquisitionCutOrderedHighWater
    | InvalidAcquisitionLossDiagnostic
    | InvalidAcquisitionOrdinal
    | InvalidClientRequestId
    | InvalidClientResponseId
    | LargeItemLifecycleIsOutsideTheSelectedBoundedTurnContract
    | LocalFactThreadIdentitySubstitution
    | LocalFactTurnIdentitySubstitution
    | LossEnvelopeUnexpectedlyContainsADecodedMessage
    | MessageRefusedByRetainedEventByteBound
    | MultiplePreAdmissionSamplingRequestsAreNotAllowed
    | NewProviderRequestHidesAnUnresolvedRequestOccurrence
    | NewProviderRequestPrecedesExactResponseCompletion
    | OrderedAcquisitionOrdinalGapDuplicateOrReorder
    | OrderedMessageEnvelopeShapeMismatch
    | OrderedProviderMessageUnexpectedlyCarriesARequestMethod
    | OutputOrUsageTurnAttributionMismatch
    | ProviderActivityFollowedUnansweredApproval
    | ProviderAdmissionEvidenceExceedsCumulativeByteBound
    | ProviderAdmissionEvidenceRecordBoundExceeded
    | ProviderBoundaryHasNoExactPendingRequest
    | ProviderEvidenceFollowedAPostAdmissionInterruption
    | ProviderEvidenceFollowedAnIndeterminateDispatch
    | ProviderOutputExceedsAdmittedBound
    | ProviderOutputTurnAttributionMismatch
    | ProviderRefusalDiagnosticExceedsBound
    | ProviderRefusalDoesNotProveTerminalPreCreatedState
    | ProviderRefusalFollowsAdmittedExecution
    | ProviderRefusalTimePrecedesRequestStart
    | ProviderRefusalTypedErrorMismatch
    | ProviderRequestFollowsClosedDispatchDisposition
    | ProviderRequestOrderingOrHiddenRetryDiscrepancy
    | ProviderRequestTimePrecedesRetainedBoundary
    | ResponseCompletionHasNoExactAdmittedResponseIdentity
    | ResponseCompletionIdentitySubstitution
    | ResponseCompletionLacksAnExactResponseCreatedBoundary
    | ResponseCreatedTimePrecedesRequestStart
    | RetainedAppServerWireBytesDifferFromParsedMessage
    | RetainedFrameFieldIsNotAnObject
    | RetainedFrameIsNotAnObject
    | TerminalAcquisitionCutIsAlreadyRetained
    | TurnCompletedBeforeExactResponseApprovalSequenceClosed
    | TurnCompletedWithoutExactProviderExecutionIdentity
    | TurnStartResponseTurnIdentitySubstitution
    | UnhashablePhase
    | UnknownAcquisitionCutProcessDisposition
    | UnknownAppServerServerRequest
    | UnknownClientRequestMethod
    | UnknownLegacyLocalTurnFact
    | UnknownOrderedAcquisitionEnvelopeKind
    | UnknownProviderBoundaryNotification
    | UnknownProviderRefusalKind
    | V2ProviderAdmissionRequiresAnOrderedAcquisitionEnvelope
    | ValueIsOutsideRFC8785JCS
    | WorkerOutputExceedsAdmittedBound

  /** `detail[:4096]`: only text made elsewhere can be that long. */
  function Truncated(detail: Reason): Reason {
    if detail.Reported? && |detail.text| > MAXIMUM_DIAGNOSTIC_CODEPOINTS
    then Reported(detail.text[..MAXIMUM_DIAGNOSTIC_CODEPOINTS]) else detail
  }
}
