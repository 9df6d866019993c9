# Smart Ride Connect: tracking simulation and form handlers in Dafny

This project models the logic of a browser client for a ride-sharing service.
The model covers four parts of the client.

- **Live tracking (`Tracking.TrackingPage`).** The ride status goes from
  upcoming to in-progress to completed. The driver's position moves toward
  the passenger on a timer. The ETA and distance labels count down. An SOS
  button sends the device position to the backend.
- **Sign-up form (`Signup`).** The submit handler checks the fields in a
  fixed order. It builds the registration body and reports how the backend
  call ended.
- **Login form (`Login`).** The user picks a role. The submit handler checks
  the fields in a fixed order, sends the credentials, and on success stores
  the token, calls back the parent and opens the dashboard.
- **Ride search (`SearchRides`).** The seat select offers 1 to 4 seats. The
  submit handler checks the query, and the result list and the `searched`
  flag follow the backend's answer.

Timers are discrete events. Each timer callback is one method of the class:
the start timeout, each firing of the position interval, the arrival dwell,
the redirect to the rating page and the SOS reset. A method can run only when
its timer is pending. The pending timers are fields of the class.

The backend is an abstract `Ui.Outcome`:
- `Ok(data)`;
- `ServerError(message)`, an error response whose body may carry a message;
- `NetworkError`, no response at all.

The browser's geolocation result is a parameter of the SOS click. What a
handler does outside its component goes to an effect `log`: toasts, requests
with their bodies, navigation, the stored token, the parent's login callback,
and ride updates pushed to the parent.

JavaScript objects are `map<string, Value>`: the parent's ride record, the
request bodies and the search results. A `Value` is a string, a number, a
boolean, null, an array or a nested object (a search result's `driver`, for
one). So `{...activeRide, status}` is a map update, and "every other field is
preserved" is a fact about maps.

Positions are integer points. The labels are datatypes: `Mins(n)` or
`Arriving` for "n mins", and `Km(tenths)` or `Arrived` for "x km", with
distance kept in integer tenths of a kilometre. The page prints the distance
with `toFixed(1)` and always subtracts 0.5, so tenths are exact.

Files:
- `ui.dfy`: shared values and effects.
- `ride_simulation.dfy`: the per-tick updaters as pure functions, and lemmas
  about any number of ticks.
- `tracking.dfy`: the tracking page class.
- `signup.dfy`, `login.dfy`, `search_rides.dfy`: the three forms.

Facts about the code that the model keeps as written:
- **No clamping.** Each tick only tests whether a coordinate is below its
  target before adding 5 (src/components/rides/TrackingPage.js:71-72). A gap
  that is not a multiple of 5 therefore overshoots (`OvershootExample`).
- **Distance can go negative.** The test `km > 0.1` is made on the value
  before 0.5 is subtracted (src/components/rides/TrackingPage.js:99), so
  0.2 km becomes -0.3 km (`NegativeDistanceExample`).
- **The last tick still updates the labels.** The interval is cleared inside
  the position updater (src/components/rides/TrackingPage.js:75-76), but the
  ETA and distance updaters of the same firing still run
  (src/components/rides/TrackingPage.js:92-100). With the page's defaults the
  interval stops on the 8th tick, at (70,70), and the ride finishes showing
  "7 mins" and "1.2 km"; it never shows "Arriving" or "Arrived"
  (`DefaultRideProgress`, `TrackingPage.Tick`, `DefaultRideRun`).
- **SOS without a ride.** The post body reads `activeRide.id`
  (src/components/rides/TrackingPage.js:44). On a page opened without a ride
  that read fails after the position is fetched and before anything is
  posted, so the click ends in the failure toast.

## Model

| member | source | states |
|---|---|---|
| `RideSimulation.StepAxis` | src/components/rides/TrackingPage.js:71-72 | a coordinate strictly below its target rises by exactly 5; otherwise it is unchanged |
| `RideSimulation.NextPoint` | src/components/rides/TrackingPage.js:70-72 | neither driver coordinate ever decreases on a tick |
| `RideSimulation.NextEta` | src/components/rides/TrackingPage.js:92-95 | "n mins" with n > 1 becomes "n-1 mins", anything else becomes "Arriving"; "Arriving" maps to itself; the ETA never rises |
| `RideSimulation.NextDistance` | src/components/rides/TrackingPage.js:97-100 | a distance above 0.1 km drops by exactly 0.5 km, anything else becomes "Arrived"; "Arrived" is absorbing; the distance never rises |
| `RideSimulation.ProgressAfterParts` | src/components/rides/TrackingPage.js:69-101 | n firings of the interval act on position, ETA and distance independently |
| `RideSimulation.AxisAfterMonotone` | src/components/rides/TrackingPage.js:70-72 | over any number of ticks a coordinate never decreases |
| `RideSimulation.AxisAfterBelow` | src/components/rides/TrackingPage.js:71-72 | while each step started below the target, n ticks add exactly 5n |
| `RideSimulation.AxisAfterStays` | src/components/rides/TrackingPage.js:71-72 | a coordinate at or past its target never moves again |
| `RideSimulation.AxisReachedIff` | src/components/rides/TrackingPage.js:71-75 | a coordinate is at or past its target exactly from tick ceil(gap/5) on, and then it is less than one step past it |
| `RideSimulation.IntervalStopsAt` | src/components/rides/TrackingPage.js:75-76 | the stop test holds on tick n (n ≥ 1) exactly when n is at least the later of the two axes' arrival ticks, and at least 1 |
| `RideSimulation.EtaAfterMins` | src/components/rides/TrackingPage.js:92-95 | after n ticks "m mins" is "m-n mins" while n < m, and "Arriving" from then on |
| `RideSimulation.EtaAfterArriving` | src/components/rides/TrackingPage.js:92-95 | "Arriving" stays "Arriving" over any number of ticks |
| `RideSimulation.DistanceAfterKm` | src/components/rides/TrackingPage.js:97-100 | while every value before a tick was above 0.1 km, n ticks subtract exactly 0.5n km |
| `RideSimulation.DistanceAfterArrived` | src/components/rides/TrackingPage.js:97-100 | "Arrived" stays "Arrived" over any number of ticks |
| `RideSimulation.LabelsNonIncreasing` | src/components/rides/TrackingPage.js:91-100 | over any number of ticks neither the ETA nor the distance rises |
| `RideSimulation.DefaultRideProgress` | src/components/rides/TrackingPage.js:7-10 | from (30,30) toward (70,70) with "15 mins" and "5.2 km", tick k (k ≤ 8) gives (30+5k, 30+5k), "15-k mins" and 5.2-0.5k km; the stop test holds on tick 8 and on no earlier tick |
| `RideSimulation.OvershootExample` | src/components/rides/TrackingPage.js:71 | with no clamping, a coordinate going from 32 toward 70 arrives on tick 8 at 72 |
| `RideSimulation.NegativeDistanceExample` | src/components/rides/TrackingPage.js:99 | 0.2 km becomes -0.3 km, because the test is made before subtracting |
| `Tracking.WithStatus` | src/components/rides/TrackingPage.js:20-23 | the ride pushed to the parent has the parent's keys plus `status`, the new status label, and every other field unchanged |
| `Tracking.RideDetails` | src/components/rides/TrackingPage.js:110-121 | the page shows the parent's ride when there is one; otherwise a placeholder with id 1 that carries the page's own status |
| `Tracking.SosReport` | src/components/rides/TrackingPage.js:43-47 | the SOS body carries the latitude and longitude, and carries `rideId` exactly when the ride has an `id`, with that id as its value |
| `Tracking.TrackingPage.constructor` | src/components/rides/TrackingPage.js:6-12 | status "upcoming", driver at (30,30), passenger at (70,70), "15 mins", "5.2 km", no SOS, not loading, only the start timer pending |
| `Tracking.TrackingPage.UpdateRideStatus` | src/components/rides/TrackingPage.js:16-25 | called only for the two forward steps (upcoming to in-progress, in-progress to completed); sets the status and pushes the parent's ride with only the status replaced; with no parent ride it pushes nothing |
| `Tracking.TrackingPage.StartTimerFired` | src/components/rides/TrackingPage.js:63-69 | only from "upcoming": the status becomes "in-progress", the parent is told, a toast is shown and the interval starts; the status history grows by exactly that step |
| `Tracking.TrackingPage.Tick` | src/components/rides/TrackingPage.js:69-101 | position, ETA and distance each advance by one tick; the interval is cleared and the dwell scheduled exactly when both coordinates reach the passenger's, which is on tick 8 at (70,70), "7 mins" and "1.2 km" |
| `Tracking.TrackingPage.ArrivalDwellFired` | src/components/rides/TrackingPage.js:78-85 | only from "in-progress" with the interval cleared: the status becomes "completed", the parent is told, a toast is shown and the rating redirect is scheduled; nothing moves again |
| `Tracking.TrackingPage.RatingRedirectFired` | src/components/rides/TrackingPage.js:82-84 | the page navigates to /rating once |
| `Tracking.TrackingPage.SosClick` | src/components/rides/TrackingPage.js:27-59 | without geolocation: one error toast, no post, loading and SOS flag untouched. Otherwise the SOS is raised, with a reset scheduled, only when the position is obtained, a ride exists and the post succeeds; the post carries `{rideId, latitude, longitude}`; every failure leaves the flag as it was; loading ends false; the ride's progress is untouched |
| `Tracking.TrackingPage.SosResetFired` | src/components/rides/TrackingPage.js:53 | a reset timeout clears the SOS flag |
| `Tracking.DefaultRideRun` | src/components/rides/TrackingPage.js:61-108 | the whole timer chain completes the ride after exactly 8 ticks at (70,70), "7 mins" and "1.2 km"; the parent sees "in-progress" then "completed"; the page navigates to /rating once |
| `Tracking.SosRun` | src/components/rides/TrackingPage.js:33-53 | a successful SOS is raised at once with exactly one report carrying the ride's id and the coordinates, and its reset clears it |
| `Ui.ErrorText` | src/components/auth/SignupPage.js:54-59 | the failure toast is the server's non-empty message when a response exists, the page's fallback when the response has none, and the network text when there is no response |
| `Signup.SignupWarning` | src/components/auth/SignupPage.js:21-32 | no warning exactly when the form is submittable; "Please fill in all fields" exactly when a required field is empty; the password mismatch warning only once the required fields pass; the driver warning only for a driver missing a vehicle field after both earlier checks pass |
| `Signup.UserData` | src/components/auth/SignupPage.js:36-49 | the body has the five account fields and `role` (0 for "passenger", 1 otherwise); the vehicle fields are there exactly for a driver; `confirmPassword` is never sent |
| `Signup.VehicleFieldsIgnoredUnlessDriver` | src/components/auth/SignupPage.js:29-49 | for anyone but a driver, the vehicle inputs change neither the warning nor the body |
| `Signup.SignupPage.constructor` | src/components/auth/SignupPage.js:6-16 | every input empty, role "passenger", not loading |
| `Signup.SignupPage.Edit` | src/components/auth/SignupPage.js:80-204 | the inputs' change handlers set the form's fields |
| `Signup.SignupPage.HandleSignup` | src/components/auth/SignupPage.js:19-63 | a failed check shows its warning, makes no register call and leaves loading alone; otherwise exactly one register call with `UserData`, then success toast and a delayed move to /login, or the error toast; loading ends false |
| `Login.LoginWarning` | src/components/auth/LoginPage.js:18-25 | no warning exactly when a role is chosen and both email and password are filled; the role warning comes first |
| `Login.Credentials` | src/components/auth/LoginPage.js:29-33 | the login body holds exactly email, password and the role as the selected role's string |
| `Login.LoginPage.constructor` | src/components/auth/LoginPage.js:6-9 | no role selected, empty inputs, not loading |
| `Login.LoginPage.HandleRoleSelect` | src/components/auth/LoginPage.js:12-14 | the selected role becomes the clicked one; clicking the selected role again changes nothing |
| `Login.LoginPage.EditCredentials` | src/components/auth/LoginPage.js:83-95 | the inputs' change handlers set email and password |
| `Login.LoginPage.HandleLogin` | src/components/auth/LoginPage.js:16-48 | a failed check shows its warning and makes no call; otherwise one login call; on success the token is stored under "token", the parent gets the role and the user's name, and the page opens /dashboard, in that order; on failure only the error toast (fallback "Login failed"); loading ends false |
| `SearchRides.SearchWarning` | src/components/rides/SearchRidesPage.js:15-18 | no warning exactly when departure, destination and date are non-empty and seats is not 0; the warning is "Please fill in all fields" |
| `SearchRides.SearchParams` | src/components/rides/SearchRidesPage.js:22-27 | the query holds exactly departure, destination, date and seats |
| `SearchRides.ChosenSeatsAreTruthy` | src/components/rides/SearchRidesPage.js:96-101 | every seat option is between 1 and 4, so the seat count never causes the warning |
| `SearchRides.SearchRidesPage.constructor` | src/components/rides/SearchRidesPage.js:5-11 | empty query, one seat, no rides, not searched, not loading |
| `SearchRides.SearchRidesPage.EditQuery` | src/components/rides/SearchRidesPage.js:62-86 | the text and date inputs set the query; the seat count stays one of the select's options |
| `SearchRides.SearchRidesPage.SelectSeats` | src/components/rides/SearchRidesPage.js:96-101 | the seat count is always one of 1, 2, 3, 4 |
| `SearchRides.SearchRidesPage.HandleSearch` | src/components/rides/SearchRidesPage.js:13-40 | a failed check warns and makes no call; on success the rides become the answer and `searched` is set, with an info toast for an empty answer; on failure an error toast, and the rides and `searched` keep their values; loading ends false; with the seat count always an option of the select, the warning appears exactly when a text input is empty |

## Left out

- Rendering: the JSX, CSS classes, badges and colours, the seat labels, the price total (a float product) and the locale date formatting.
- `src/services/api.js`, the HTTP client and its token interceptor. The backend is the abstract `Outcome`, and each call is a `Request` effect naming its route.
- Real geolocation, network, `localStorage` and router internals. They appear only as parameters and as effects in `log`.
- Wall-clock time. Timers are discrete events, so the model does not capture the real interleaving of the interval and the timeouts. The 5 s, 2 s and 10 s delays are not represented. Only the sign-up redirect delay (1500 ms) is recorded, in its effect.
- The intermediate `isLoading == true` state. Each handler runs from click to `finally` as one step, so only the final value of `isLoading` is observable.
- Teardown. The interval is never cleared on unmount, because the cleanup returned from inside the start timeout is ignored. Unmounting is not modelled.
- Overlapping SOS resets. Every successful click schedules its own reset (`sosResets` counts them), and the first reset to fire clears the flag. Reset order is not tracked further.
- A parent that changes its ride record while the timers run. The callbacks use the record they captured, and `activeRide` is a constant of the page.
- Malformed backend bodies: a success response without `token` or `user`, and an error response without `data`. `LoginResponse` and `ServerError` assume well-formed bodies.
- `handleBookRide`, which only shows a toast.
