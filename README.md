# Renewable energy calculator — validation core

This project models the two pieces of the web application's `WebApp` package
that hold decision logic of their own:

- **The weather-API request form's date check** (`WindAPIForm.clean`). Given the
  form's cleaned data and the current date, it either returns the data unchanged
  or rejects it with one of four messages. The checks run in a fixed order:
  the start date must be in the past, then the end date, then the start must not
  come after the end, then the span must be at most 365 days. The check only runs
  when both dates are present. Module `WindApiForm` (`wind_api_form.dfy`) models
  dates as whole day numbers. It takes `today` as a parameter instead of reading
  the clock. A raised validation error becomes `Err(e)`, and `Message(e)` holds
  the exact text.
- **The turbine record and its save** (`Turbine.save`). Before storing, an
  efficiency (power coefficient) above 0.6 or below 0 is overwritten with 0.4.
  Values in [0, 0.6], both ends included, are kept. Module `TurbineModel`
  (`turbine.dfy`) has a `Turbine` class with the record's six fields. Its `Save`
  method may modify only `efficiency`.

The order of the date checks is also stated independently. `CheckOrder` lists
the rules, and `Violates` says when each single rule fails. The lemma
`ReportedErrorIsFirstViolated` proves that the reported error is exactly the
first violated rule in that list, in both directions.

Two statements around the check promise more than it does. The comment on
`WebApp/forms.py:55` says both dates must lie within one year of today. The
code only requires both dates before today and at most 365 days apart, so a
range far in the past, such as today − 1000 to today − 900, is accepted. The
message for the last rule says the range must be "less than one year". Yet a
span of exactly 365 days is accepted, which is a whole year when the span
holds no 29 February. The model follows the code, and `BoundaryCases` states
both edges.

## Model

| member | source | states |
|---|---|---|
| WindApiForm.CheckDates | WebApp/forms.py:56-69 | no error is reported exactly when start ≤ end < today and end − start ≤ 365; any reported error names a rule the dates really violate |
| WindApiForm.Clean | WebApp/forms.py:47-71 | with either date absent the data is returned unchanged; on acceptance the data is returned unchanged; accepted ⇔ (both dates present ⇒ start ≤ end < today and end − start ≤ 365) |
| WindApiForm.ReportedErrorIsFirstViolated | WebApp/forms.py:56-69 | the form rejects with error e if and only if both dates are present and e is the first rule, in the order start-past, end-past, ordering, span, that the dates violate |
| WindApiForm.StartCheckComesFirst | WebApp/forms.py:58-59 | a start date on or after today is rejected with the start-date error whatever the end date is |
| WindApiForm.BoundaryCases | WebApp/forms.py:58-69 | the edges: start = today and end = today are rejected; start = end is accepted; start one day after end is rejected; a span of exactly 365 days is accepted and one of 366 is rejected; a range far in the past (today − 1000 to today − 900) is accepted |
| WindApiForm.MessagesIdentifyError | WebApp/forms.py:59-69 | the four rejection messages are pairwise different, so the message identifies the failed rule |
| TurbineModel.NormalizedEfficiency | WebApp/models.py:20-22 | the stored efficiency is always in [0, 0.6]; an in-range value, endpoints included, is kept; a value above 0.6 or below 0 becomes exactly 0.4 |
| TurbineModel.NormalizeIdempotent | WebApp/models.py:20-22 | normalising a normalised efficiency changes nothing |
| TurbineModel.NormalizeFixedPoints | WebApp/models.py:20 | normalisation leaves a value unchanged if and only if it is already in [0, 0.6] |
| TurbineModel.Turbine.constructor | WebApp/models.py:9-14 | a new turbine holds the six given field values; nothing is normalised before a save |
| TurbineModel.Turbine.Save | WebApp/models.py:16-23 | after a save efficiency is the normalised old value, so it lies in [0, 0.6]; an in-range value is unchanged; above 0.6 or below 0 gives 0.4; only `efficiency` may change |
| TurbineModel.SaveTwice | WebApp/models.py:16-23 | two saves in a row store the same efficiency as one, and leave name, company name, rotor diameter, nominal power and startup speed as they were |

## Left out

- The clock: `datetime.today()` is replaced by the `today` parameter of `Clean`.
- Calendar dates are whole day numbers. The range of years Python's `date` supports is not modelled.
- The form fields' own parsing and the framework's `super().clean()` are not modelled. A date that failed to parse is simply absent.
- `Clean` treats the raise as a rejection of the form. In the source, the raised `ValidationError` is the REST framework's, not the form framework's. The form framework would therefore not turn it into a form error. That propagation is not modelled.
- `TurbineModel.NormalizedEfficiency`: efficiencies are exact reals, not IEEE doubles. A NaN efficiency fails both comparisons on line 20, so it is kept unchanged in memory, outside [0, 0.6]. The model has no NaN, so it does not show this. What the database then does with a NaN is not modelled either.
- The turbine's fields are assumed to hold numbers. A missing efficiency (`None`) or a non-numeric one makes the comparison on line 20 raise `TypeError`. That error path is not modelled.
- Persistence (`super().save`) and the warning written to the log in `Turbine.save` are not modelled. Only the change to `efficiency` is.
- The field constraints (name length and uniqueness, company name length) are not checked by the `save` override. The database enforces them during `super().save()`, which can then raise, for example on a duplicate name. That is not modelled.
- `Turbine.__str__` is string formatting and is not modelled.
- `calculate_air_density` and `turbine_to_dict` in `WebApp/utils.py` are not modelled. One is a single floating-point formula and the other copies fields.
- The other forms in `WebApp/forms.py` are not modelled: they only declare fields. `RegisterForm.clean` depends on a database lookup of existing e-mail addresses.
- The views, URL routes, admin registration, serializer and migrations are not modelled: they hold no logic of their own.
- The turbine power-output calculation, with its swept area, cubic wind law, startup cutoff, nominal-power cap and consumption netting, is not part of this model. No source file here implements it.
