/** The exceptions the KPI application services raise, and the Python errors they let escape. */
module KpiErrors {
  datatype KpiError =
    | UnitNotProvided              // KPIsUnitNotProvidedException
    | AbsoluteKpisNotProvided      // AbsoluteKPIsNotProvidedException
    | AbsoluteKpisNotAllowed       // AbsoluteKPIsNotAllowedException
    | ResponsiblePersonNotFound    // ResponsiblePersonNotFoundException
    | NotFromSameCompany           // NotFromSameCompanyException
    | FrequencyNotProvided         // KPIFrequencyNotProvidedException
    | FrequencyDataNotValidated    // KPIFrequencyDataNotValidatedException
    | KpisException(cause: KpiError) // KPIsException wrapping whatever was raised inside the transaction
    | AbsoluteKpiNotFound          // AbsoluteKPIsNotFoundException
    | FrequencyNotFound            // KPIFrequencyNotFoundException
    | KpiNotExists                 // KPINotExistsException
    | RelativeKpiNotFound          // RelativeKPINotFoundException
    | UnknownField(field: string)  // Django's FieldDoesNotExist from `QuerySet.update`
    | IndexError                   // a list subscript past the end
    | TypeError                    // iterating over None
    | ValueError                   // `datetime.date` given a month or year out of range
    | OverflowError                // date arithmetic past year 9999
}
