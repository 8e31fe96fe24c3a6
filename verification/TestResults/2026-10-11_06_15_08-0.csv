TestResult.DisplayName,TestResult.Outcome,TestResult.Duration,TestResult.ResourceCount,RandomSeed
RUtils.MakeRVector (well-formedness),Passed,00:00:00.1175207,116171,0
RUtils.PrefixedLiteral (well-formedness),Passed,00:00:00.1011181,46614,0
RUtils.IsTruthy (well-formedness),Passed,00:00:00.0779816,9379,0
RUtils.NamePrefix (well-formedness),Passed,00:00:00.0776457,13417,0
RUtils.ParseCommaSpaceJoin (correctness),Passed,00:00:00.0764324,168091,0
RUtils.PrefixedLiteral (correctness),Passed,00:00:00.0465310,94522,0
RUtils.NamedRVector (correctness),Passed,00:00:00.0366599,136188,0
RUtils.CommaSpaceJoin (correctness),Passed,00:00:00.0357030,90523,0
RUtils.CommaSpaceJoin (well-formedness),Passed,00:00:00.0302255,27809,0
RUtils.PaddedHasNoComma (correctness),Passed,00:00:00.0236381,40006,0
RUtils.ParseBody (well-formedness),Passed,00:00:00.0206969,47818,0
RUtils.Padded (well-formedness),Passed,00:00:00.0178328,41436,0
RUtils.PaddedHasNoComma (well-formedness),Passed,00:00:00.0133707,26336,0
RUtils.BodyOfLiteral (correctness),Passed,00:00:00.0112709,22566,0
RUtils.CommaFree (well-formedness),Passed,00:00:00.0109470,9351,0
RUtils.Body (well-formedness),Passed,00:00:00.0098863,13395,0
RUtils.DropSpace (well-formedness),Passed,00:00:00.0064637,9735,0
